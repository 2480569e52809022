/** Configuration of one Kubernetes source: what to watch and which events to report. */
module KubernetesConfig {
  import opened Options
  import Runes

  datatype EventType =
    | CreateEvent | UpdateEvent | DeleteEvent | ErrorEvent
    | WarningEvent | NormalEvent | InfoEvent | AllEvent
    | OtherEvent(text: string)

  /** Matches a value (second argument) against a pattern; `None` when the pattern does not compile. */
  type Regexp = (string, string) -> Option<bool>

  datatype Verdict = Allowed | Denied | Failed

  datatype RegexConstraints = RegexConstraints(includes: seq<string>, excludes: seq<string>) {
    predicate AreConstraintsDefined() { |includes| > 0 || |excludes| > 0 }
  }

  const NO_CONSTRAINTS := RegexConstraints([], [])

  datatype KubernetesEvent = KubernetesEvent(reason: RegexConstraints, message: RegexConstraints,
                                             types: seq<EventType>) {
    predicate AreConstraintsDefined() { reason.AreConstraintsDefined() || message.AreConstraintsDefined() }
  }

  datatype UpdateSetting = UpdateSetting(fields: seq<string>, includeDiff: bool)

  datatype Resource = Resource(kind: string, name: RegexConstraints, namespaces: RegexConstraints,
                               annotations: map<string, string>, labels: map<string, string>,
                               event: KubernetesEvent, updateSetting: UpdateSetting)

  /** `recommended` maps a resource to the event its recommendations listen to. */
  datatype Config = Config(recommended: map<string, EventType>, event: Option<KubernetesEvent>,
                           resources: seq<Resource>,
                           namespaces: Option<RegexConstraints>, annotations: Option<map<string, string>>,
                           labels: Option<map<string, string>>)
  {
    /** The program dereferences the event settings of every configuration that lists resources. */
    predicate Usable() { event.Some? || resources == [] }
  }

  /** The channel a stream returns to its caller; every call makes a new one. */
  type Channel = nat

  /**
   A configured source; its events are sent to `eventCh`, and `kubeConfig` holds the credentials they are watched with.
   */
  datatype SourceConfig = SourceConfig(name: string, eventCh: Channel, cfg: Config, isInteractivitySupported: bool,
                                       clusterName: string, kubeConfig: string)

  // ---- regular expression constraints ----------------------------------------

  predicate Blank(s: string) { forall c | c in s :: Runes.IsSpace(c as int) }

  /** The first pattern that hits or breaks settles the matter; `Denied` means that no inclusion applies. */
  function JudgeIncludes(re: Regexp, patterns: seq<string>, value: string): Verdict {
    if patterns == [] then Denied
    else if patterns[0] == value then Allowed
    else
      match re(patterns[0], value)
      case None => Failed
      case Some(matched) => if matched then Allowed else JudgeIncludes(re, patterns[1..], value)
  }

  /** `Allowed` means that no exclusion applies. */
  function JudgeExcludes(re: Regexp, patterns: seq<string>, value: string): Verdict {
    if patterns == [] then Allowed
    else if Blank(patterns[0]) then JudgeExcludes(re, patterns[1..], value)
    else if patterns[0] == value then Denied
    else
      match re(patterns[0], value)
      case None => Failed
      case Some(matched) => if matched then Denied else JudgeExcludes(re, patterns[1..], value)
  }

  function Judge(re: Regexp, c: RegexConstraints, value: string): Verdict {
    var excluded := JudgeExcludes(re, c.excludes, value);
    if excluded != Allowed then excluded else JudgeIncludes(re, c.includes, value)
  }

  method IsAllowed(re: Regexp, c: RegexConstraints, value: string) returns (verdict: Verdict)
    ensures verdict == Judge(re, c, value)
  {
    for i := 0 to |c.excludes|
      invariant JudgeExcludes(re, c.excludes, value) == JudgeExcludes(re, c.excludes[i..], value)
    {
      var pattern := c.excludes[i];
      assert c.excludes[i..][1..] == c.excludes[i + 1..];
      if Blank(pattern) {
        continue;
      }
      if pattern == value {
        return Denied;
      }
      match re(pattern, value)
      case None => return Failed;
      case Some(matched) =>
        if matched {
          return Denied;
        }
    }
    for i := 0 to |c.includes|
      invariant JudgeIncludes(re, c.includes, value) == JudgeIncludes(re, c.includes[i..], value)
    {
      var pattern := c.includes[i];
      assert c.includes[i..][1..] == c.includes[i + 1..];
      if pattern == value {
        return Allowed;
      }
      match re(pattern, value)
      case None => return Failed;
      case Some(matched) =>
        if matched {
          return Allowed;
        }
    }
    return Denied;
  }

  // ---- what a verdict means ------------------------------------------------------

  predicate Hits(re: Regexp, pattern: string, value: string) { pattern == value || re(pattern, value) == Some(true) }

  predicate Breaks(re: Regexp, pattern: string, value: string) { pattern != value && re(pattern, value) == None }

  predicate Misses(re: Regexp, pattern: string, value: string) { pattern != value && re(pattern, value) == Some(false) }

  /** The exclusion is blank, or neither hits nor breaks. */
  predicate Idle(re: Regexp, pattern: string, value: string) {
    (forall c | c in pattern :: Runes.IsSpace(c as int)) || Misses(re, pattern, value)
  }

  /** The exclusion at `i` does not compile and settles the matter. */
  predicate ExclusionBreaks(re: Regexp, patterns: seq<string>, value: string, i: nat) {
    && i < |patterns| && !Idle(re, patterns[i], value) && Breaks(re, patterns[i], value)
    && forall j | 0 <= j < i :: Idle(re, patterns[j], value)
  }

  /** The inclusion at `i` hits, and no inclusion before it is broken. */
  predicate InclusionHits(re: Regexp, patterns: seq<string>, value: string, i: nat) {
    i < |patterns| && Hits(re, patterns[i], value) && forall j | 0 <= j < i :: !Breaks(re, patterns[j], value)
  }

  predicate InclusionBreaks(re: Regexp, patterns: seq<string>, value: string, i: nat) {
    i < |patterns| && Breaks(re, patterns[i], value) && forall j | 0 <= j < i :: Misses(re, patterns[j], value)
  }

  lemma ExclusionBreaksNext(re: Regexp, patterns: seq<string>, value: string)
    requires patterns != []
    ensures (exists i: nat :: ExclusionBreaks(re, patterns, value, i)) <==>
      || (!Idle(re, patterns[0], value) && Breaks(re, patterns[0], value))
      || (Idle(re, patterns[0], value) && exists i: nat :: ExclusionBreaks(re, patterns[1..], value, i))
  {
    var rest := patterns[1..];
    assert ExclusionBreaks(re, patterns, value, 0)
      <==> (!Idle(re, patterns[0], value) && Breaks(re, patterns[0], value));
    if i: nat :| ExclusionBreaks(re, patterns, value, i) {
      assert i > 0 ==> ExclusionBreaks(re, rest, value, i - 1);
    }
    if Idle(re, patterns[0], value) {
      if i: nat :| ExclusionBreaks(re, rest, value, i) {
        assert forall j | 0 < j < i + 1 :: patterns[j] == rest[j - 1];
        assert ExclusionBreaks(re, patterns, value, i + 1);
      }
    }
  }

  lemma InclusionHitsNext(re: Regexp, patterns: seq<string>, value: string)
    requires patterns != []
    ensures (exists i: nat :: InclusionHits(re, patterns, value, i)) <==>
      || Hits(re, patterns[0], value)
      || (!Breaks(re, patterns[0], value) && exists i: nat :: InclusionHits(re, patterns[1..], value, i))
  {
    var rest := patterns[1..];
    assert InclusionHits(re, patterns, value, 0) <==> Hits(re, patterns[0], value);
    if i: nat :| InclusionHits(re, patterns, value, i) {
      assert i > 0 ==> InclusionHits(re, rest, value, i - 1);
    }
    if !Breaks(re, patterns[0], value) {
      if i: nat :| InclusionHits(re, rest, value, i) {
        assert forall j | 0 < j < i + 1 :: patterns[j] == rest[j - 1];
        assert InclusionHits(re, patterns, value, i + 1);
      }
    }
  }

  lemma InclusionBreaksNext(re: Regexp, patterns: seq<string>, value: string)
    requires patterns != []
    ensures (exists i: nat :: InclusionBreaks(re, patterns, value, i)) <==>
      || Breaks(re, patterns[0], value)
      || (Misses(re, patterns[0], value) && exists i: nat :: InclusionBreaks(re, patterns[1..], value, i))
  {
    var rest := patterns[1..];
    assert InclusionBreaks(re, patterns, value, 0) <==> Breaks(re, patterns[0], value);
    if i: nat :| InclusionBreaks(re, patterns, value, i) {
      assert i > 0 ==> InclusionBreaks(re, rest, value, i - 1);
    }
    if Misses(re, patterns[0], value) {
      if i: nat :| InclusionBreaks(re, rest, value, i) {
        assert forall j | 0 < j < i + 1 :: patterns[j] == rest[j - 1];
        assert InclusionBreaks(re, patterns, value, i + 1);
      }
    }
  }

  lemma {:induction false} ExcludesMeaning(re: Regexp, patterns: seq<string>, value: string)
    ensures JudgeExcludes(re, patterns, value) == Allowed
      <==> forall i | 0 <= i < |patterns| :: Idle(re, patterns[i], value)
    ensures JudgeExcludes(re, patterns, value) == Failed
      <==> exists i: nat :: ExclusionBreaks(re, patterns, value, i)
  {
    if patterns != [] {
      ExcludesMeaning(re, patterns[1..], value);
      ExclusionBreaksNext(re, patterns, value);
      assert forall i | 0 <= i < |patterns| - 1 :: patterns[1..][i] == patterns[i + 1];
    }
  }

  lemma {:induction false} IncludesMeaning(re: Regexp, patterns: seq<string>, value: string)
    ensures JudgeIncludes(re, patterns, value) == Allowed <==> exists i: nat :: InclusionHits(re, patterns, value, i)
    ensures JudgeIncludes(re, patterns, value) == Failed <==> exists i: nat :: InclusionBreaks(re, patterns, value, i)
  {
    if patterns != [] {
      IncludesMeaning(re, patterns[1..], value);
      InclusionHitsNext(re, patterns, value);
      InclusionBreaksNext(re, patterns, value);
    }
  }

  /** A value is allowed when no exclusion applies and an inclusion does, and no pattern tried before that is broken. */
  lemma AllowedMeaning(re: Regexp, c: RegexConstraints, value: string)
    ensures Judge(re, c, value) == Allowed <==>
      && (forall i | 0 <= i < |c.excludes| :: Idle(re, c.excludes[i], value))
      && (exists i: nat :: InclusionHits(re, c.includes, value, i))
  {
    ExcludesMeaning(re, c.excludes, value);
    IncludesMeaning(re, c.includes, value);
  }

  /** A verdict fails when a pattern that does not compile is the first one tried that settles the matter. */
  lemma FailedMeaning(re: Regexp, c: RegexConstraints, value: string)
    ensures Judge(re, c, value) == Failed <==>
      || (exists i: nat :: ExclusionBreaks(re, c.excludes, value, i))
      || ((forall i | 0 <= i < |c.excludes| :: Idle(re, c.excludes[i], value))
          && exists i: nat :: InclusionBreaks(re, c.includes, value, i))
  {
    ExcludesMeaning(re, c.excludes, value);
    IncludesMeaning(re, c.includes, value);
  }
}
