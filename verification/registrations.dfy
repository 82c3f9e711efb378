/**
 * Arbitrary sequences of calls to the three public registration operations,
 * and what the registry holds after them: each structure is described by an
 * independent reference definition that looks only at the calls touching it.
 */
module Registrations {
  import opened Wrappers
  import opened ExoMedia

  /** One call an application can make on `ExoMedia`. */
  datatype Call =
    | RendererCall(rendererType: RendererType, className: string)
    | BuilderCall(entry: SourceTypeBuilder)
    | ProviderCall(provider: Option<HttpDataSourceFactoryProvider>)

  /** Every renderer type is a key of a valid registry. */
  lemma ValidHasEveryType(r: Registry, t: RendererType)
    requires Valid(r)
    ensures t in r.registeredRendererClasses
  {
  }

  /** The effect of one call; the invariant `Valid` is kept. */
  function Apply(r: Registry, c: Call): (r': Registry)
    requires Valid(r)
    ensures Valid(r')
  {
    match c
    case RendererCall(t, name) =>
      ValidHasEveryType(r, t);
      RegisterRenderer(r, t, name)
    case BuilderCall(e) => RegisterMediaSourceBuilder(r, e)
    case ProviderCall(p) => SetHttpDataSourceFactoryProvider(r, p)
  }

  /** The calls performed in order, the last one last. */
  function Run(r: Registry, calls: seq<Call>): (r': Registry)
    requires Valid(r)
    ensures Valid(r')
    decreases |calls|
  {
    if |calls| == 0 then r
    else Apply(Run(r, calls[..|calls| - 1]), calls[|calls| - 1])
  }

  // ---------------------------------------------------------------------
  // Reference definitions: what each structure should hold after `calls`.
  // ---------------------------------------------------------------------

  /** The class names registered for `t`, in registration order. */
  function NamesFor(calls: seq<Call>, t: RendererType): seq<string>
    decreases |calls|
  {
    if |calls| == 0 then []
    else
      var c := calls[|calls| - 1];
      NamesFor(calls[..|calls| - 1], t) + (if c.RendererCall? && c.rendererType == t then [c.className] else [])
  }

  /** The builder entries registered, in registration order. */
  function EntriesOf(calls: seq<Call>): seq<SourceTypeBuilder>
    decreases |calls|
  {
    if |calls| == 0 then []
    else
      var c := calls[|calls| - 1];
      EntriesOf(calls[..|calls| - 1]) + (if c.BuilderCall? then [c.entry] else [])
  }

  /** The value of the last provider write, or `initial` when there is none. */
  function LastProvider(calls: seq<Call>, initial: Option<HttpDataSourceFactoryProvider>): Option<HttpDataSourceFactoryProvider>
    decreases |calls|
  {
    if |calls| == 0 then initial
    else if calls[|calls| - 1].ProviderCall? then calls[|calls| - 1].provider
    else LastProvider(calls[..|calls| - 1], initial)
  }

  /** How many calls register `name` for `t`. */
  function CountRegistrations(calls: seq<Call>, t: RendererType, name: string): nat
    decreases |calls|
  {
    if |calls| == 0 then 0
    else
      var c := calls[|calls| - 1];
      CountRegistrations(calls[..|calls| - 1], t, name) + (if c == RendererCall(t, name) then 1 else 0)
  }

  /** `s` back to front. */
  function Reverse<T>(s: seq<T>): (r: seq<T>)
    ensures |r| == |s|
    decreases |s|
  {
    if |s| == 0 then [] else [s[|s| - 1]] + Reverse(s[..|s| - 1])
  }

  /** The k-th element of the reversal is the k-th from the end. */
  lemma {:induction false} ReverseIndex<T>(s: seq<T>, k: nat)
    requires k < |s|
    ensures Reverse(s)[k] == s[|s| - 1 - k]
    decreases |s|
  {
    if k > 0 {
      ReverseIndex(s[..|s| - 1], k - 1);
    }
  }

  // ---------------------------------------------------------------------
  // What a run does to each structure.
  // ---------------------------------------------------------------------

  /**
   * The list for `t` is the starting list followed by every name registered
   * for `t`, in registration order and with duplicates kept.
   */
  lemma {:induction false} RenderersAfterRun(r: Registry, calls: seq<Call>, t: RendererType)
    requires Valid(r)
    ensures t in r.registeredRendererClasses
    ensures Run(r, calls).registeredRendererClasses[t] == r.registeredRendererClasses[t] + NamesFor(calls, t)
    decreases |calls|
  {
    ValidHasEveryType(r, t);
    if |calls| > 0 {
      var prefix := calls[..|calls| - 1];
      RenderersAfterRun(r, prefix, t);
      ValidHasEveryType(Run(r, prefix), t);
    }
  }

  /**
   * The builder list is every registered entry, most recent first, followed
   * by the starting list in its original order.
   */
  lemma {:induction false} BuildersAfterRun(r: Registry, calls: seq<Call>)
    requires Valid(r)
    ensures Run(r, calls).sourceTypeBuilders == Reverse(EntriesOf(calls)) + r.sourceTypeBuilders
    decreases |calls|
  {
    if |calls| > 0 {
      var prefix := calls[..|calls| - 1];
      var c := calls[|calls| - 1];
      var es := EntriesOf(prefix);
      BuildersAfterRun(r, prefix);
      if c.BuilderCall? {
        var es' := es + [c.entry];
        assert EntriesOf(calls) == es';
        assert es'[..|es|] == es;
        assert Reverse(es') == [c.entry] + Reverse(es);
      } else {
        assert EntriesOf(calls) == es + [] == es;
      }
    }
  }

  /** The provider slot holds the last value written, or its starting value. */
  lemma {:induction false} ProviderAfterRun(r: Registry, calls: seq<Call>)
    requires Valid(r)
    ensures Run(r, calls).httpDataSourceFactoryProvider == LastProvider(calls, r.httpDataSourceFactoryProvider)
    decreases |calls|
  {
    if |calls| > 0 {
      ProviderAfterRun(r, calls[..|calls| - 1]);
    }
  }

  /** Registering a name k times for `t` adds exactly k occurrences of it to that list. */
  lemma {:induction false} OccurrencesAfterRun(r: Registry, calls: seq<Call>, t: RendererType, name: string)
    requires Valid(r)
    ensures t in r.registeredRendererClasses
    ensures multiset(Run(r, calls).registeredRendererClasses[t])[name]
         == multiset(r.registeredRendererClasses[t])[name] + CountRegistrations(calls, t, name)
    decreases |calls|
  {
    ValidHasEveryType(r, t);
    if |calls| > 0 {
      var prefix := calls[..|calls| - 1];
      var c := calls[|calls| - 1];
      OccurrencesAfterRun(r, prefix, t, name);
      var before := Run(r, prefix);
      ValidHasEveryType(before, t);
      if c.RendererCall? && c.rendererType == t {
        assert Run(r, calls).registeredRendererClasses[t] == before.registeredRendererClasses[t] + [c.className];
      }
    }
  }

  /** The same call made `k` times in a row. */
  function Repeat(c: Call, k: nat): (s: seq<Call>)
    ensures |s| == k
    ensures forall i :: 0 <= i < k ==> s[i] == c
  {
    seq(k, _ => c)
  }

  /**
   * No de-duplication: registering `name` for `t` k times appends k copies
   * of it, so the list gains exactly k occurrences of `name`.
   */
  lemma {:induction false} RepeatedRegistration(r: Registry, t: RendererType, name: string, k: nat)
    requires Valid(r)
    ensures t in r.registeredRendererClasses
    ensures Run(r, Repeat(RendererCall(t, name), k)).registeredRendererClasses[t]
         == r.registeredRendererClasses[t] + seq(k, _ => name)
    ensures multiset(Run(r, Repeat(RendererCall(t, name), k)).registeredRendererClasses[t])[name]
         == multiset(r.registeredRendererClasses[t])[name] + k
    decreases k
  {
    ValidHasEveryType(r, t);
    var c := RendererCall(t, name);
    if k > 0 {
      var calls := Repeat(c, k);
      assert calls[..k - 1] == Repeat(c, k - 1);
      assert calls[k - 1] == c;
      RepeatedRegistration(r, t, name, k - 1);
      var before := Run(r, Repeat(c, k - 1));
      ValidHasEveryType(before, t);
      assert Run(r, calls).registeredRendererClasses[t] == before.registeredRendererClasses[t] + [name];
      assert seq(k - 1, _ => name) + [name] == seq(k, _ => name);
    }
  }

  // ---------------------------------------------------------------------
  // Consequences for a run from the initial state.
  // ---------------------------------------------------------------------

  /** The defaults stay first in every list; user registrations follow them. */
  lemma DefaultsStayFirst(calls: seq<Call>)
    ensures Run(Init(), calls).registeredRendererClasses[Audio]
         == [OpusRenderer, FlacRenderer, FfmpegRenderer] + NamesFor(calls, Audio)
    ensures Run(Init(), calls).registeredRendererClasses[Video] == [Vp9Renderer] + NamesFor(calls, Video)
    ensures Run(Init(), calls).registeredRendererClasses[ClosedCaption] == NamesFor(calls, ClosedCaption)
    ensures Run(Init(), calls).registeredRendererClasses[Metadata] == NamesFor(calls, Metadata)
  {
    RenderersAfterRun(Init(), calls, Audio);
    RenderersAfterRun(Init(), calls, Video);
    RenderersAfterRun(Init(), calls, ClosedCaption);
    RenderersAfterRun(Init(), calls, Metadata);
  }

  /**
   * User builders appear in reverse registration order: the i-th one
   * registered sits at index |entries| - 1 - i, so a later registration is
   * tried before an earlier one. The three built-ins follow, in their
   * original order, behind every user registration.
   */
  lemma BuilderPriority(calls: seq<Call>)
    ensures |Run(Init(), calls).sourceTypeBuilders| == |EntriesOf(calls)| + 3
    ensures forall i :: 0 <= i < |EntriesOf(calls)| ==>
              Run(Init(), calls).sourceTypeBuilders[|EntriesOf(calls)| - 1 - i] == EntriesOf(calls)[i]
    ensures Run(Init(), calls).sourceTypeBuilders[|EntriesOf(calls)|..] == Builtins()
  {
    var es := EntriesOf(calls);
    var final := Run(Init(), calls).sourceTypeBuilders;
    var builtins := Builtins();
    assert Init().sourceTypeBuilders == builtins;
    assert |builtins| == 3;
    BuildersAfterRun(Init(), calls);
    assert final == Reverse(es) + builtins;
    assert final[|es|..] == builtins;
    forall i | 0 <= i < |es|
      ensures final[|es| - 1 - i] == es[i]
    {
      ReverseIndex(es, |es| - 1 - i);
    }
  }

  /** The builder registered most recently is the first one tried. */
  lemma LatestBuilderFirst(calls: seq<Call>)
    requires EntriesOf(calls) != []
    ensures |Run(Init(), calls).sourceTypeBuilders| > 0
    ensures Run(Init(), calls).sourceTypeBuilders[0] == EntriesOf(calls)[|EntriesOf(calls)| - 1]
  {
    BuilderPriority(calls);
  }

  // ---------------------------------------------------------------------
  // Independence of the three structures.
  // ---------------------------------------------------------------------

  /** The three independent structures of the registry. */
  datatype Structure = Renderers | Builders | Provider

  /** Which structure a call writes. */
  function Target(c: Call): Structure {
    match c
    case RendererCall(_, _) => Renderers
    case BuilderCall(_) => Builders
    case ProviderCall(_) => Provider
  }

  /**
   * Calls on different structures, or renderer registrations for different
   * types, commute: no call reads or writes what the other one touches.
   */
  lemma {:induction false} IndependentCallsCommute(r: Registry, a: Call, b: Call)
    requires Valid(r)
    requires Target(a) != Target(b) || (a.RendererCall? && b.RendererCall? && a.rendererType != b.rendererType)
    ensures Apply(Apply(r, a), b) == Apply(Apply(r, b), a)
  {
    if a.RendererCall? && b.RendererCall? {
      ValidHasEveryType(r, a.rendererType);
      ValidHasEveryType(r, b.rendererType);
    }
  }

  /** Two renderer registrations of different names for the same type do not commute: their order is the list order. */
  lemma SameTypeOrderMatters(r: Registry, t: RendererType, a: string, b: string)
    requires Valid(r)
    requires a != b
    ensures Apply(Apply(r, RendererCall(t, a)), RendererCall(t, b))
         != Apply(Apply(r, RendererCall(t, b)), RendererCall(t, a))
  {
    var ab := Apply(Apply(r, RendererCall(t, a)), RendererCall(t, b));
    var ba := Apply(Apply(r, RendererCall(t, b)), RendererCall(t, a));
    ValidHasEveryType(r, t);
    var n := |r.registeredRendererClasses[t]|;
    assert ab.registeredRendererClasses[t][n] == a;
    assert ba.registeredRendererClasses[t][n] == b;
  }

  /** Two different builder registrations do not commute either: the later one is tried first. */
  lemma BuilderOrderMatters(r: Registry, e1: SourceTypeBuilder, e2: SourceTypeBuilder)
    requires Valid(r)
    requires e1 != e2
    ensures Apply(Apply(r, BuilderCall(e1)), BuilderCall(e2)).sourceTypeBuilders[0] == e2
    ensures Apply(Apply(r, BuilderCall(e2)), BuilderCall(e1)).sourceTypeBuilders[0] == e1
    ensures Apply(Apply(r, BuilderCall(e1)), BuilderCall(e2)) != Apply(Apply(r, BuilderCall(e2)), BuilderCall(e1))
  {
  }
}
