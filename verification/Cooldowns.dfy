/**
 run_detection and its two nested cooldowns, for detections that run one after another. Every command
 to Redis or the database takes one reading of a clock that never goes back; time may pass between
 any two readings.
 */
module Cooldowns {
  import opened Options

  type Time = real

  /** An enabled alert rule. */
  datatype Rule = Rule(id: string, sourceId: Option<string>, metricName: Option<string>, detectorType: string,
                       severityThreshold: string, cooldownSeconds: int)

  datatype Result = Result(isAnomaly: bool, detector: string, severity: string)

  datatype Record = Record(source: string, metric: string, detector: string, severity: string, at: Time)

  /** A rule that a record matched, and when its cooldown was checked. */
  datatype Match = Match(rule: Rule, source: string, metric: string, record: nat, at: Time)

  datatype Notification = Notification(matchIndex: nat, at: Time)

  /** The n-th reading of the clock, and ANOMALY_COOLDOWN_SECONDS. */
  datatype Env = Env(times: nat -> Time, cooldown: int)

  ghost predicate Monotone(env: Env) {
    forall i: nat, j: nat | i <= j :: env.times(i) <= env.times(j)
  }

  datatype State = State(
    ops: nat,                        // readings taken
    keys: map<string, Time>,         // when each key expires
    records: seq<Record>,
    matches: seq<Match>,
    notifications: seq<Notification>,
    raised: bool)                    // an exception is leaving run_detection

  // ---- Severities ----

  function SeverityRank(severity: string, default: nat): nat {
    if severity == "low" then 1
    else if severity == "medium" then 2
    else if severity == "high" then 3
    else if severity == "critical" then 4
    else default
  }

  predicate SeverityMeetsThreshold(severity: string, threshold: string) {
    SeverityRank(severity, 0) >= SeverityRank(threshold, 99)
  }

  const SEVERITIES := ["low", "medium", "high", "critical"]

  /** The two defaults make every unknown name fail: only known severities meet known thresholds, in order. */
  lemma MeetsIffKnown(severity: string, threshold: string)
    ensures SeverityMeetsThreshold(severity, threshold)
       <==> exists i, j :: 0 <= j <= i < 4 && severity == SEVERITIES[i] && threshold == SEVERITIES[j]
  {
    var i, j := SeverityRank(severity, 0) - 1, SeverityRank(threshold, 99) - 1;
    if SeverityMeetsThreshold(severity, threshold) {
      assert 0 <= j <= i < 4 && severity == SEVERITIES[i] && threshold == SEVERITIES[j];
    } else {
      assert forall k | 0 <= k < 4 :: SeverityRank(SEVERITIES[k], 0) == SeverityRank(SEVERITIES[k], 99) == k + 1;
    }
  }

  // ---- Keys ----

  function RecordKey(source: string, metric: string, detector: string): string {
    "cd:" + source + ":" + metric + ":" + detector
  }

  function RuleKey(rule: string, source: string, metric: string): string {
    "rulecd:" + rule + ":" + source + ":" + metric
  }

  // ---- Redis ----

  function Now(env: Env, s: State): Time {
    env.times(s.ops)
  }

  function Tick(s: State): State {
    s.(ops := s.ops + 1)
  }

  /** EXISTS. */
  predicate Cooling(env: Env, s: State, key: string) {
    key in s.keys && Now(env, s) < s.keys[key]
  }

  /** SETEX, which refuses a time to live that is not positive. */
  function Armed(env: Env, s: State, key: string, ttl: int): State {
    if ttl <= 0 then Tick(s).(raised := true)
    else Tick(s).(keys := s.keys[key := Now(env, s) + ttl as real])
  }

  // ---- run_detection ----

  predicate Applies(rule: Rule, source: string, metric: string, det: Result) {
    && (rule.sourceId.None? || rule.sourceId.value == source)
    && (rule.metricName.None? || rule.metricName.value == metric)
    && rule.detectorType == det.detector
    && SeverityMeetsThreshold(det.severity, rule.severityThreshold)
  }

  /** Lines 100-113 for one rule; `rec` is the record's index. */
  function ConsiderRule(env: Env, s: State, rule: Rule, source: string, metric: string, det: Result, rec: nat): State {
    if s.raised || !Applies(rule, source, metric, det) then s
    else
      var key := RuleKey(rule.id, source, metric);
      if Cooling(env, s, key) then Tick(s)
      else
        var s1 := Tick(s).(matches := s.matches + [Match(rule, source, metric, rec, Now(env, s))]);
        Armed(env, s1, key, rule.cooldownSeconds)
  }

  function ConsiderRules(env: Env, s: State, rules: seq<Rule>, source: string, metric: string, det: Result,
      rec: nat): State {
    if rules == [] then s
    else
      var n := |rules| - 1;
      ConsiderRule(env, ConsiderRules(env, s, rules[..n], source, metric, det, rec), rules[n], source, metric, det, rec)
  }

  /** Notify of the matches from index `lo` up to `hi`. */
  function Notify(env: Env, s: State, lo: nat, hi: nat): State
    decreases hi - lo
  {
    if lo >= hi then s
    else
      var s1 := Notify(env, s, lo, hi - 1);
      Tick(s1).(notifications := s1.notifications + [Notification(hi - 1, Now(env, s1))])
  }

  /** The record of a result that is not cooling: checked, added, armed. */
  function Recorded(env: Env, s: State, source: string, metric: string, det: Result): State {
    var s1 := Tick(s);
    var s2 := Tick(s1).(records := s.records + [Record(source, metric, det.detector, det.severity, Now(env, s1))]);
    Armed(env, s2, RecordKey(source, metric, det.detector), env.cooldown)
  }

  /** Lines 50-117 for one result. */
  function ConsiderResult(env: Env, s: State, rules: seq<Rule>, source: string, metric: string, det: Result): State {
    if s.raised || !det.isAnomaly then s
    else if Cooling(env, s, RecordKey(source, metric, det.detector)) then Tick(s)
    else
      var s1 := Recorded(env, s, source, metric, det);
      if s1.raised then s1
      else
        var s2 := ConsiderRules(env, s1, rules, source, metric, det, |s.records|);
        if s2.raised then s2 else Notify(env, s2, |s1.matches|, |s2.matches|)
  }

  function ConsiderResults(env: Env, s: State, rules: seq<Rule>, source: string, metric: string,
      results: seq<Result>): State {
    if results == [] then s
    else
      var n := |results| - 1;
      ConsiderResult(env, ConsiderResults(env, s, rules, source, metric, results[..n]), rules,
          source, metric, results[n])
  }

  /** One call: the source if it is known, the window as read, and the detectors. */
  datatype Call = Call(source: Option<string>, metric: string, window: seq<real>, rules: seq<Rule>,
                       detect: (seq<real>, real) -> seq<Result>)

  /** An exception that left an earlier call is behind. */
  function Detected(env: Env, s: State, call: Call): State {
    var s0 := s.(raised := false);
    if call.source.None? || call.window == [] then s0
    else
      var n := |call.window| - 1;
      ConsiderResults(env, s0, call.rules, call.source.value, call.metric,
          call.detect(call.window[..n], call.window[n]))
  }

  // ---- The code ----

  class DetectionEngine {
    const env: Env
    var ops: nat
    var keys: map<string, Time>
    var records: seq<Record>
    var matches: seq<Match>
    var notifications: seq<Notification>
    var raised: bool

    function Value(): State
      reads this
    {
      State(ops, keys, records, matches, notifications, raised)
    }

    constructor (env: Env)
      ensures Value() == State(0, map[], [], [], [], false) && this.env == env
    {
      this.env, ops, keys, records, matches, notifications, raised := env, 0, map[], [], [], [], false;
    }

    method CheckCooldown(key: string) returns (cooling: bool)
      modifies this`ops
      ensures cooling == Cooling(env, old(Value()), key) && ops == old(ops) + 1
    {
      cooling := key in keys && env.times(ops) < keys[key];
      ops := ops + 1;
    }

    method ArmCooldown(key: string, ttlSeconds: Option<int>)
      modifies this`ops, this`keys, this`raised
      ensures Value() == Armed(env, old(Value()), key, if ttlSeconds.Some? then ttlSeconds.value else env.cooldown)
    {
      var ttl := if ttlSeconds.Some? then ttlSeconds.value else env.cooldown;
      if ttl <= 0 {
        raised := true;
      } else {
        keys := keys[key := env.times(ops) + ttl as real];
      }
      ops := ops + 1;
    }

    /** Lines 99-113. */
    method MatchRules(rules: seq<Rule>, source: string, metric: string, det: Result,
        rec: nat) returns (matched: seq<nat>)
      requires !raised
      modifies this
      ensures Value() == ConsiderRules(env, old(Value()), rules, source, metric, det, rec)
      ensures |matched| == |matches| - |old(matches)|
      ensures forall i | 0 <= i < |matched| :: matched[i] == |old(matches)| + i
    {
      hide Applies;
      matched := [];
      var i := 0;
      while i < |rules| && !raised
        invariant 0 <= i <= |rules|
        invariant Value() == ConsiderRules(env, old(Value()), rules[..i], source, metric, det, rec)
        invariant |matched| == |matches| - |old(matches)|
        invariant forall j | 0 <= j < |matched| :: matched[j] == |old(matches)| + j
      {
        var rule := rules[i];
        assert rules[..i + 1][..i] == rules[..i];
        if Applies(rule, source, metric, det) {
          var ruleCd := RuleKey(rule.id, source, metric);
          var cooling := CheckCooldown(ruleCd);
          if !cooling {
            matched := matched + [|matches|];
            matches := matches + [Match(rule, source, metric, rec, env.times(ops - 1))];
            ArmCooldown(ruleCd, Some(rule.cooldownSeconds));
          }
        }
        i := i + 1;
      }
      RaisedStops(env, old(Value()), rules, source, metric, det, rec, i);
    }

    /** Lines 114-117. */
    method SendNotifications(matched: seq<nat>, lo: nat)
      requires forall i | 0 <= i < |matched| :: matched[i] == lo + i
      modifies this`ops, this`notifications
      ensures Value() == Notify(env, old(Value()), lo, lo + |matched|)
    {
      var i := 0;
      while i < |matched|
        invariant 0 <= i <= |matched| && Value() == Notify(env, old(Value()), lo, lo + i)
      {
        notifications := notifications + [Notification(matched[i], env.times(ops))];
        ops := ops + 1;
        i := i + 1;
      }
    }

    /** Lines 51-117. */
    method HandleResult(rules: seq<Rule>, source: string, metric: string, det: Result)
      requires !raised
      modifies this
      ensures Value() == ConsiderResult(env, old(Value()), rules, source, metric, det)
    {
      hide ConsiderRules, Notify;
      if !det.isAnomaly { return; }
      var cooldownKey := RecordKey(source, metric, det.detector);
      var cooling := CheckCooldown(cooldownKey);
      if cooling { return; }
      var rec := |records|;
      records := records + [Record(source, metric, det.detector, det.severity, env.times(ops))];
      ops := ops + 1;
      ArmCooldown(cooldownKey, None);
      if raised { return; }
      var lo := |matches|;
      var matched := MatchRules(rules, source, metric, det, rec);
      if raised { return; }
      SendNotifications(matched, lo);
    }

    /** Lines 33-117. */
    method RunDetection(call: Call)
      modifies this
      ensures Value() == Detected(env, old(Value()), call)
    {
      hide ConsiderResult;
      raised := false;
      ghost var start := Value();
      if call.source.None? { return; }
      if |call.window| == 0 { return; }
      var current := call.window[|call.window| - 1];
      var hist := call.window[..|call.window| - 1];
      var results := call.detect(hist, current);
      var i := 0;
      while i < |results| && !raised
        invariant 0 <= i <= |results|
        invariant Value() == ConsiderResults(env, start, call.rules, call.source.value, call.metric, results[..i])
      {
        assert results[..i + 1][..i] == results[..i];
        HandleResult(call.rules, call.source.value, call.metric, results[i]);
        i := i + 1;
      }
      RaisedEnds(env, start, call.rules, call.source.value, call.metric, results, i);
    }
  }

  lemma {:induction false} RaisedStops(env: Env, s: State, rules: seq<Rule>, source: string, metric: string,
      det: Result, rec: nat, i: nat)
    requires i <= |rules| && (i == |rules| || ConsiderRules(env, s, rules[..i], source, metric, det, rec).raised)
    ensures ConsiderRules(env, s, rules, source, metric, det, rec) ==
        ConsiderRules(env, s, rules[..i], source, metric, det, rec)
    decreases |rules|
  {
    hide ConsiderRule;
    if i == |rules| {
      assert rules[..i] == rules;
    } else {
      var init := rules[..|rules| - 1];
      assert init[..i] == rules[..i];
      RaisedStops(env, s, init, source, metric, det, rec, i);
      RaisedRule(env, ConsiderRules(env, s, init, source, metric, det, rec), rules[|rules| - 1],
          source, metric, det, rec);
    }
  }

  lemma RaisedRule(env: Env, s: State, rule: Rule, source: string, metric: string, det: Result, rec: nat)
    requires s.raised
    ensures ConsiderRule(env, s, rule, source, metric, det, rec) == s
  {
  }

  lemma {:induction false} RaisedEnds(env: Env, s: State, rules: seq<Rule>, source: string, metric: string,
      results: seq<Result>, i: nat)
    requires i <= |results| && (i == |results| || ConsiderResults(env, s, rules, source, metric, results[..i]).raised)
    ensures ConsiderResults(env, s, rules, source, metric, results) ==
        ConsiderResults(env, s, rules, source, metric, results[..i])
    decreases |results|
  {
    hide ConsiderResult;
    if i == |results| {
      assert results[..i] == results;
    } else {
      var init := results[..|results| - 1];
      assert init[..i] == results[..i];
      RaisedEnds(env, s, rules, source, metric, init, i);
      RaisedResult(env, ConsiderResults(env, s, rules, source, metric, init), rules,
          source, metric, results[|results| - 1]);
    }
  }

  lemma RaisedResult(env: Env, s: State, rules: seq<Rule>, source: string, metric: string, det: Result)
    requires s.raised
    ensures ConsiderResult(env, s, rules, source, metric, det) == s
  {
  }

  // ---- The invariant ----

  ghost predicate ArmedUntil(s: State, key: string, until: Time) {
    key in s.keys && s.keys[key] >= until
  }

  ghost predicate SameSeries(a: Record, b: Record) {
    a.source == b.source && a.metric == b.metric && a.detector == b.detector
  }

  ghost predicate RecordsOk(env: Env, s: State) {
    && (forall i | 0 <= i < |s.records| :: s.records[i].at <= Now(env, s))
    && (env.cooldown > 0 ==> forall i | 0 <= i < |s.records| :: var r := s.records[i];
          ArmedUntil(s, RecordKey(r.source, r.metric, r.detector), r.at + env.cooldown as real))
    && (forall i, j | 0 <= i < j < |s.records| && SameSeries(s.records[i], s.records[j]) ::
          s.records[j].at >= s.records[i].at + env.cooldown as real)
  }

  ghost predicate SameRule(a: Match, b: Match) {
    a.rule.id == b.rule.id && a.source == b.source && a.metric == b.metric
  }

  ghost predicate MatchesOk(env: Env, s: State) {
    && (forall i | 0 <= i < |s.matches| :: s.matches[i].at <= Now(env, s))
    && (forall i | 0 <= i < |s.matches| && s.matches[i].rule.cooldownSeconds > 0 :: var m := s.matches[i];
          ArmedUntil(s, RuleKey(m.rule.id, m.source, m.metric), m.at + m.rule.cooldownSeconds as real))
    && (forall i, j | 0 <= i < j < |s.matches| && SameRule(s.matches[i], s.matches[j]) ::
          s.matches[j].at >= s.matches[i].at + s.matches[i].rule.cooldownSeconds as real)
  }

  /** A match belongs to a record that its rule fits. */
  ghost predicate MatchFits(s: State, m: Match) {
    && m.record < |s.records|
    && var r := s.records[m.record];
       r.source == m.source && r.metric == m.metric && r.detector == m.rule.detectorType && r.at <= m.at
  }

  ghost predicate LinksOk(env: Env, s: State) {
    && (forall i | 0 <= i < |s.matches| :: MatchFits(s, s.matches[i]))
    && (forall i, j | 0 <= i < j < |s.matches| :: s.matches[i].record <= s.matches[j].record)
    && (forall i, j | 0 <= i < j < |s.matches| && s.matches[i].record == s.matches[j].record ::
          s.matches[i].rule.id != s.matches[j].rule.id)
  }

  ghost predicate NotificationsOk(env: Env, s: State) {
    && (forall i | 0 <= i < |s.notifications| ::
          s.notifications[i].matchIndex < |s.matches| &&
              s.matches[s.notifications[i].matchIndex].at <= s.notifications[i].at)
    && (forall i, j | 0 <= i < j < |s.notifications| :: s.notifications[i].matchIndex < s.notifications[j].matchIndex)
  }

  ghost predicate Inv(env: Env, s: State) {
    RecordsOk(env, s) && MatchesOk(env, s) && LinksOk(env, s) && NotificationsOk(env, s)
  }

  /** Nothing is taken back: a key is armed only when it has run out, and so only for later. */
  ghost predicate Grows(s: State, s': State) {
    && s.ops <= s'.ops && s.records <= s'.records && s.matches <= s'.matches && s.notifications <= s'.notifications
    && forall key | key in s.keys :: ArmedUntil(s', key, s.keys[key])
  }

  // What a step leaves alone stays in order as the rest grows.

  lemma RecordsStayOk(env: Env, s: State, s': State)
    requires Monotone(env) && RecordsOk(env, s) && Grows(s, s') && s'.records == s.records
    ensures RecordsOk(env, s')
  {
    hide RecordKey;
    assert Now(env, s) <= Now(env, s');
  }

  lemma MatchesStayOk(env: Env, s: State, s': State)
    requires Monotone(env) && MatchesOk(env, s) && Grows(s, s') && s'.matches == s.matches
    ensures MatchesOk(env, s')
  {
    hide RuleKey;
    assert Now(env, s) <= Now(env, s');
  }

  lemma LinksStayOk(env: Env, s: State, s': State)
    requires LinksOk(env, s) && s.records <= s'.records && s'.matches == s.matches
    ensures LinksOk(env, s')
  {
    forall i | 0 <= i < |s.matches| ensures MatchFits(s', s'.matches[i]) { assert MatchFits(s, s.matches[i]); }
  }

  lemma NotificationsStayOk(env: Env, s: State, s': State)
    requires NotificationsOk(env, s) && s.matches <= s'.matches && s'.notifications == s.notifications
    ensures NotificationsOk(env, s')
  {
  }

  lemma TickKeeps(env: Env, s: State)
    requires Monotone(env) && Inv(env, s)
    ensures Inv(env, Tick(s))
  {
    hide RecordsOk, MatchesOk, LinksOk, NotificationsOk;
    RecordsStayOk(env, s, Tick(s));
    MatchesStayOk(env, s, Tick(s));
    LinksStayOk(env, s, Tick(s));
    NotificationsStayOk(env, s, Tick(s));
  }

  lemma RecordedGrows(env: Env, s: State, source: string, metric: string, det: Result)
    requires Monotone(env) && !Cooling(env, s, RecordKey(source, metric, det.detector))
    ensures Grows(s, Recorded(env, s, source, metric, det))
  {
    hide RecordKey;
    assert env.times(s.ops) <= env.times(s.ops + 2);
  }

  lemma NewRecordIsOk(env: Env, s: State, source: string, metric: string, det: Result)
    requires Monotone(env) && RecordsOk(env, s) && !Cooling(env, s, RecordKey(source, metric, det.detector))
    ensures RecordsOk(env, Recorded(env, s, source, metric, det))
  {
    hide RecordKey;
    RecordedGrows(env, s, source, metric, det);
    assert env.times(s.ops) <= env.times(s.ops + 1) <= env.times(s.ops + 2) <= env.times(s.ops + 3);
  }

  lemma RecordedKeeps(env: Env, s: State, source: string, metric: string, det: Result)
    requires Monotone(env) && Inv(env, s) && !Cooling(env, s, RecordKey(source, metric, det.detector))
    ensures Inv(env, Recorded(env, s, source, metric, det))
  {
    hide RecordsOk, MatchesOk, LinksOk, NotificationsOk, Cooling;
    var s' := Recorded(env, s, source, metric, det);
    RecordedGrows(env, s, source, metric, det);
    NewRecordIsOk(env, s, source, metric, det);
    MatchesStayOk(env, s, s');
    LinksStayOk(env, s, s');
    NotificationsStayOk(env, s, s');
  }

  lemma RuleGrows(env: Env, s: State, rule: Rule, source: string, metric: string, det: Result, rec: nat)
    requires Monotone(env)
    ensures Grows(s, ConsiderRule(env, s, rule, source, metric, det, rec))
  {
    hide RuleKey, Applies;
    assert env.times(s.ops) <= env.times(s.ops + 1);
  }

  /** The matches of record `rec`, which is the last one, come from `rules`. */
  ghost predicate NewMatches(s: State, lo: nat, rules: seq<Rule>, rec: nat) {
    && rec == |s.records| - 1 && lo <= |s.matches|
    && (forall i | 0 <= i < lo :: s.matches[i].record < rec)
    && (forall i | lo <= i < |s.matches| ::
          s.matches[i].record == rec && exists k :: 0 <= k < |rules| && rules[k].id == s.matches[i].rule.id)
  }

  lemma NewMatchIsOk(env: Env, s: State, rule: Rule, source: string, metric: string, det: Result, rec: nat)
    requires Monotone(env) && MatchesOk(env, s)
    ensures MatchesOk(env, ConsiderRule(env, s, rule, source, metric, det, rec))
  {
    hide RuleKey, Applies;
    RuleGrows(env, s, rule, source, metric, det, rec);
    assert env.times(s.ops) <= env.times(s.ops + 1) <= env.times(s.ops + 2);
  }

  /** `rec` is the last record, of this series, and the rule has not matched it before. */
  ghost predicate MayMatch(s: State, rule: Rule, source: string, metric: string, det: Result, rec: nat) {
    && rec == |s.records| - 1 && s.records[rec].source == source && s.records[rec].metric == metric
    && s.records[rec].detector == det.detector
    && forall i | 0 <= i < |s.matches| && s.matches[i].record == rec :: s.matches[i].rule.id != rule.id
  }

  lemma NewMatchIsLinked(env: Env, s: State, rule: Rule, source: string, metric: string, det: Result, rec: nat)
    requires RecordsOk(env, s) && LinksOk(env, s) && MayMatch(s, rule, source, metric, det, rec)
    ensures LinksOk(env, ConsiderRule(env, s, rule, source, metric, det, rec))
  {
    hide RecordKey, RuleKey, SeverityMeetsThreshold;
    var s' := ConsiderRule(env, s, rule, source, metric, det, rec);
    forall i | 0 <= i < |s'.matches| ensures MatchFits(s', s'.matches[i]) && s'.matches[i].record <= rec {
      if i < |s.matches| { assert MatchFits(s, s.matches[i]); }
    }
  }

  lemma RuleKeeps(env: Env, s: State, rule: Rule, source: string, metric: string, det: Result, rec: nat)
    requires Monotone(env) && Inv(env, s) && MayMatch(s, rule, source, metric, det, rec)
    ensures Inv(env, ConsiderRule(env, s, rule, source, metric, det, rec))
  {
    hide RecordsOk, MatchesOk, LinksOk, NotificationsOk, MayMatch, Applies, RuleKey;
    var s' := ConsiderRule(env, s, rule, source, metric, det, rec);
    RuleGrows(env, s, rule, source, metric, det, rec);
    RecordsStayOk(env, s, s');
    NewMatchIsOk(env, s, rule, source, metric, det, rec);
    NewMatchIsLinked(env, s, rule, source, metric, det, rec);
    NotificationsStayOk(env, s, s');
  }

  lemma RuleAddsMatch(env: Env, s: State, rule: Rule, source: string, metric: string, det: Result, rec: nat,
      lo: nat, before: seq<Rule>)
    requires NewMatches(s, lo, before, rec)
    ensures NewMatches(ConsiderRule(env, s, rule, source, metric, det, rec), lo, before + [rule], rec)
    ensures ConsiderRule(env, s, rule, source, metric, det, rec).records == s.records
  {
    hide RuleKey, Applies;
    var s', after := ConsiderRule(env, s, rule, source, metric, det, rec), before + [rule];
    forall i | lo <= i < |s'.matches|
      ensures s'.matches[i].record == rec && exists k :: 0 <= k < |after| && after[k].id == s'.matches[i].rule.id
    {
      if i < |s.matches| {
        var k :| 0 <= k < |before| && before[k].id == s.matches[i].rule.id;
        assert after[k].id == s'.matches[i].rule.id;
      } else {
        assert after[|before|].id == s'.matches[i].rule.id;
      }
    }
  }

  ghost predicate DistinctRules(rules: seq<Rule>) {
    forall i, j | 0 <= i < j < |rules| :: rules[i].id != rules[j].id
  }

  lemma {:induction false} RulesKeep(env: Env, s: State, rules: seq<Rule>, source: string, metric: string,
      det: Result, rec: nat)
    requires Monotone(env) && Inv(env, s) && DistinctRules(rules) && NewMatches(s, |s.matches|, [], rec)
    requires s.records[rec].source == source && s.records[rec].metric == metric &&
        s.records[rec].detector == det.detector
    ensures var s' := ConsiderRules(env, s, rules, source, metric, det, rec);
            && Inv(env, s') && NewMatches(s', |s.matches|, rules, rec) && s'.records == s.records
            && |s.matches| <= |s'.matches| && s'.notifications == s.notifications
  {
    hide Inv, ConsiderRule, Monotone;
    if rules != [] {
      var init, rule := rules[..|rules| - 1], rules[|rules| - 1];
      RulesKeep(env, s, init, source, metric, det, rec);
      var s1 := ConsiderRules(env, s, init, source, metric, det, rec);
      assert rules == init + [rule];
      RuleAddsMatch(env, s1, rule, source, metric, det, rec, |s.matches|, init);
      RuleSendsNothing(env, s1, rule, source, metric, det, rec);
      RuleKeeps(env, s1, rule, source, metric, det, rec);
    }
  }

  lemma RuleSendsNothing(env: Env, s: State, rule: Rule, source: string, metric: string, det: Result, rec: nat)
    ensures ConsiderRule(env, s, rule, source, metric, det, rec).notifications == s.notifications
  {
    hide RuleKey, Applies;
  }

  lemma NewNotificationIsOk(env: Env, s: State, m: nat)
    requires MatchesOk(env, s) && NotificationsOk(env, s) && m < |s.matches|
    requires forall i | 0 <= i < |s.notifications| :: s.notifications[i].matchIndex < m
    ensures NotificationsOk(env, Tick(s).(notifications := s.notifications + [Notification(m, Now(env, s))]))
  {
    hide RuleKey;
  }

  lemma NotifyOneKeeps(env: Env, s: State, m: nat)
    requires Monotone(env) && Inv(env, s) && m < |s.matches|
    requires forall i | 0 <= i < |s.notifications| :: s.notifications[i].matchIndex < m
    ensures Inv(env, Tick(s).(notifications := s.notifications + [Notification(m, Now(env, s))]))
  {
    hide RecordsOk, MatchesOk, LinksOk, NotificationsOk;
    var s' := Tick(s).(notifications := s.notifications + [Notification(m, Now(env, s))]);
    RecordsStayOk(env, s, s');
    MatchesStayOk(env, s, s');
    LinksStayOk(env, s, s');
    NewNotificationIsOk(env, s, m);
  }

  lemma {:induction false} NotifyKeeps(env: Env, s: State, lo: nat, hi: nat)
    requires Monotone(env) && Inv(env, s) && lo <= hi <= |s.matches|
    requires forall i | 0 <= i < |s.notifications| :: s.notifications[i].matchIndex < lo
    ensures Inv(env, Notify(env, s, lo, hi)) && Notify(env, s, lo, hi).matches == s.matches
    ensures forall i | 0 <= i < |Notify(env, s, lo, hi).notifications| ::
        Notify(env, s, lo, hi).notifications[i].matchIndex < hi
    decreases hi - lo
  {
    hide Inv, Monotone;
    if lo < hi {
      NotifyKeeps(env, s, lo, hi - 1);
      NotifyOneKeeps(env, Notify(env, s, lo, hi - 1), hi - 1);
    }
  }

  lemma RecordedAdds(env: Env, s: State, source: string, metric: string, det: Result)
    requires Inv(env, s)
    ensures var s' := Recorded(env, s, source, metric, det);
            && NewMatches(s', |s'.matches|, [], |s.records|)
            && s'.records[|s.records|].source == source && s'.records[|s.records|].metric == metric
            && s'.records[|s.records|].detector == det.detector
  {
    hide RecordKey, RuleKey;
  }

  lemma NotifiedMatchesExist(env: Env, s: State)
    requires Inv(env, s)
    ensures forall i | 0 <= i < |s.notifications| :: s.notifications[i].matchIndex < |s.matches|
  {
    hide RecordsOk, MatchesOk, LinksOk;
  }

  lemma ResultKeeps(env: Env, s: State, rules: seq<Rule>, source: string, metric: string, det: Result)
    requires Monotone(env) && Inv(env, s) && DistinctRules(rules)
    ensures Inv(env, ConsiderResult(env, s, rules, source, metric, det))
  {
    hide Inv, Monotone, ConsiderRules, Notify, Recorded, RecordKey;
    if !s.raised && det.isAnomaly {
      if Cooling(env, s, RecordKey(source, metric, det.detector)) {
        TickKeeps(env, s);
      } else {
        var s1 := Recorded(env, s, source, metric, det);
        RecordedKeeps(env, s, source, metric, det);
        RecordedAdds(env, s, source, metric, det);
        RulesKeep(env, s1, rules, source, metric, det, |s.records|);
        var s2 := ConsiderRules(env, s1, rules, source, metric, det, |s.records|);
        NotifiedMatchesExist(env, s1);
        NotifyKeeps(env, s2, |s1.matches|, |s2.matches|);
      }
    }
  }

  lemma {:induction false} ResultsKeep(env: Env, s: State, rules: seq<Rule>, source: string, metric: string,
      results: seq<Result>)
    requires Monotone(env) && Inv(env, s) && DistinctRules(rules)
    ensures Inv(env, ConsiderResults(env, s, rules, source, metric, results))
  {
    hide Inv, Monotone, ConsiderResult;
    if results != [] {
      ResultsKeep(env, s, rules, source, metric, results[..|results| - 1]);
      ResultKeeps(env, ConsiderResults(env, s, rules, source, metric, results[..|results| - 1]),
          rules, source, metric, results[|results| - 1]);
    }
  }

  // ---- Whole runs ----

  /** Calls one after another, on a platform that begins with nothing recorded; rule ids are a primary key. */
  ghost predicate Run(env: Env, calls: seq<Call>, ss: seq<State>) {
    && Monotone(env) && |ss| == |calls| + 1 && ss[0] == State(0, map[], [], [], [], false)
    && (forall i | 0 <= i < |calls| :: DistinctRules(calls[i].rules))
    && (forall i | 0 <= i < |calls| :: ss[i + 1] == Detected(env, ss[i], calls[i]))
  }

  lemma RecoveredKeeps(env: Env, s: State)
    requires Inv(env, s)
    ensures Inv(env, s.(raised := false))
  {
    hide RecordKey, RuleKey;
  }

  lemma {:induction false} RunKeeps(env: Env, calls: seq<Call>, ss: seq<State>, i: nat)
    requires Run(env, calls, ss) && i < |ss|
    ensures Inv(env, ss[i])
  {
    if i > 0 {
      RunKeeps(env, calls, ss, i - 1);
      hide Inv, Monotone, ConsiderResults;
      var call := calls[i - 1];
      assert ss[i - 1 + 1] == Detected(env, ss[i - 1], call);
      RecoveredKeeps(env, ss[i - 1]);
      if call.source.Some? && call.window != [] {
        var n := |call.window| - 1;
        ResultsKeep(env, ss[i - 1].(raised := false), call.rules, call.source.value, call.metric,
            call.detect(call.window[..n], call.window[n]));
      }
    }
  }

  /** Two records of one source, metric and detector are at least the cooldown apart. */
  lemma RecordsAreSpaced(env: Env, calls: seq<Call>, ss: seq<State>, i: nat, a: nat, b: nat)
    requires Run(env, calls, ss) && i < |ss| && a < b < |ss[i].records| &&
        SameSeries(ss[i].records[a], ss[i].records[b])
    ensures ss[i].records[b].at >= ss[i].records[a].at + env.cooldown as real
  {
    RunKeeps(env, calls, ss, i);
    hide RecordKey, RuleKey;
  }

  lemma {:induction false} SpacedSpan(times: seq<Time>, gap: real)
    requires |times| > 0 && forall i | 0 <= i < |times| - 1 :: times[i + 1] >= times[i] + gap
    ensures times[|times| - 1] >= times[0] + (|times| - 1) as real * gap
  {
    if |times| > 1 {
      var n := |times| - 1;
      SpacedSpan(times[..n], gap);
      assert times[n - 1 + 1] >= times[n - 1] + gap;
      assert (n as real) * gap == (n - 1) as real * gap + gap;
    }
  }

  /**
   A rate bound over any run: an interval of length `span` holds at most floor(span / C) + 1 records of
   one source, metric and detector. `picks` are the indices of any such records.
   */
  lemma RecordRate(env: Env, calls: seq<Call>, ss: seq<State>, i: nat, picks: seq<nat>, from: Time, span: real)
    requires Run(env, calls, ss) && i < |ss| && env.cooldown > 0 && span >= 0.0
    requires forall k | 0 <= k < |picks| ::
        picks[k] < |ss[i].records| && from <= ss[i].records[picks[k]].at <= from + span
    requires forall k | 0 <= k < |picks| - 1 ::
        picks[k] < picks[k + 1] && SameSeries(ss[i].records[picks[k]], ss[i].records[picks[k + 1]])
    ensures |picks| <= (span / env.cooldown as real).Floor + 1
  {
    hide Run;
    if |picks| > 0 {
      var gap := env.cooldown as real;
      var times := seq(|picks|, k requires 0 <= k < |picks| => ss[i].records[picks[k]].at);
      forall k | 0 <= k < |times| - 1 ensures times[k + 1] >= times[k] + gap {
        RecordsAreSpaced(env, calls, ss, i, picks[k], picks[k + 1]);
      }
      SpacedSpan(times, gap);
      FloorBound(|picks| - 1, span, gap);
    }
  }

  lemma FloorBound(n: nat, span: real, gap: real)
    requires gap > 0.0 && n as real * gap <= span
    ensures n <= (span / gap).Floor
  {
    assert span / gap >= (n as real * gap) / gap == n as real;
  }

  /** A later match of a rule waits out the cooldown the rule had at the earlier one. */
  lemma MatchesAreSpaced(env: Env, calls: seq<Call>, ss: seq<State>, i: nat, a: nat, b: nat)
    requires Run(env, calls, ss) && i < |ss| && a < b < |ss[i].matches| && SameRule(ss[i].matches[a], ss[i].matches[b])
    ensures ss[i].matches[b].at >= ss[i].matches[a].at + ss[i].matches[a].rule.cooldownSeconds as real
  {
    RunKeeps(env, calls, ss, i);
    hide RecordKey, RuleKey;
  }

  lemma MatchesHaveRecords(env: Env, s: State, a: nat, b: nat)
    requires Inv(env, s) && a < b < |s.matches| && s.matches[a].rule.id == s.matches[b].rule.id
    ensures MatchFits(s, s.matches[a]) && MatchFits(s, s.matches[b])
    ensures s.matches[a].record < s.matches[b].record
  {
    hide RecordsOk, MatchesOk, NotificationsOk;
  }

  /** Two notifications, in order, of one unchanged rule for one source and metric. */
  ghost predicate SameAlarm(s: State, a: nat, b: nat) {
    && a < b < |s.notifications| &&
        s.notifications[a].matchIndex < |s.matches| && s.notifications[b].matchIndex < |s.matches|
    && var m, m' := s.matches[s.notifications[a].matchIndex], s.matches[s.notifications[b].matchIndex];
       m.rule == m'.rule && m.source == m'.source && m.metric == m'.metric && m.record < |s.records|
  }

  /** The longer of the two cooldowns of the rule that notification `a` is about. */
  ghost function LongerCooldown(env: Env, s: State, a: nat): real
    requires a < |s.notifications| && s.notifications[a].matchIndex < |s.matches|
  {
    var cd := s.matches[s.notifications[a].matchIndex].rule.cooldownSeconds;
    if cd >= env.cooldown then cd as real else env.cooldown as real
  }

  /** How long after its record notification `a` was sent. */
  ghost function Lag(s: State, a: nat): real
    requires a < |s.notifications| && s.notifications[a].matchIndex < |s.matches|
    requires s.matches[s.notifications[a].matchIndex].record < |s.records|
  {
    s.notifications[a].at - s.records[s.matches[s.notifications[a].matchIndex].record].at
  }

  /**
   Both cooldowns together: the second notification comes no sooner than ANOMALY_COOLDOWN_SECONDS after
   the record of the first was made, and the rule's cooldown after the first was matched.
   */
  lemma NotificationsWait(env: Env, calls: seq<Call>, ss: seq<State>, i: nat, a: nat, b: nat)
    requires Run(env, calls, ss) && i < |ss| && SameAlarm(ss[i], a, b)
    ensures var s := ss[i]; var m := s.matches[s.notifications[a].matchIndex];
            && s.notifications[b].at >= s.records[m.record].at + env.cooldown as real
            && s.notifications[b].at >= m.at + m.rule.cooldownSeconds as real
            && m.at >= s.records[m.record].at
  {
    RunKeeps(env, calls, ss, i);
    var s := ss[i];
    var x, y := s.notifications[a].matchIndex, s.notifications[b].matchIndex;
    hide Run, Inv;
    NotificationOrder(env, s, a, b);
    MatchesHaveRecords(env, s, x, y);
    MatchesAreSpaced(env, calls, ss, i, x, y);
    RecordsAreSpaced(env, calls, ss, i, s.matches[x].record, s.matches[y].record);
  }

  /** So the two are as far apart as the longer cooldown, less the lag of the first. */
  lemma NotificationsAreSpaced(env: Env, calls: seq<Call>, ss: seq<State>, i: nat, a: nat, b: nat)
    requires Run(env, calls, ss) && i < |ss| && SameAlarm(ss[i], a, b)
    ensures ss[i].notifications[b].at - ss[i].notifications[a].at >= LongerCooldown(env, ss[i], a) - Lag(ss[i], a)
  {
    hide Run;
    NotificationsWait(env, calls, ss, i, a, b);
  }

  lemma NotificationOrder(env: Env, s: State, a: nat, b: nat)
    requires Inv(env, s) && a < b < |s.notifications|
    ensures s.notifications[a].matchIndex < s.notifications[b].matchIndex < |s.matches|
    ensures s.matches[s.notifications[b].matchIndex].at <= s.notifications[b].at
  {
    hide RecordsOk, MatchesOk, LinksOk;
  }

  // ---- Which rules match ----

  function FirstColon(s: string): nat {
    if s == [] || s[0] == ':' then 0 else 1 + FirstColon(s[1..])
  }

  lemma {:induction false} FirstColonEnds(a: string, rest: string)
    requires ':' !in a
    ensures FirstColon(a + ":" + rest) == |a|
  {
    if a != [] {
      assert (a + ":" + rest)[1..] == a[1..] + ":" + rest;
      FirstColonEnds(a[1..], rest);
    }
  }

  /** Rule ids are uuids, with no colon in them, so two rules do not share a cooldown key. */
  lemma RuleKeysDiffer(a: string, b: string, source: string, metric: string)
    requires ':' !in a && ':' !in b && RuleKey(a, source, metric) == RuleKey(b, source, metric)
    ensures a == b
  {
    var n, tail := |"rulecd:"|, source + ":" + metric;
    var x, y := RuleKey(a, source, metric)[n..], RuleKey(b, source, metric)[n..];
    assert x == a + ":" + tail && y == b + ":" + tail;
    FirstColonEnds(a, tail);
    FirstColonEnds(b, tail);
    assert a == x[..|a|] && b == y[..|b|];
  }

  ghost predicate DistinctKeys(rules: seq<Rule>, source: string, metric: string) {
    forall i, j | 0 <= i < j < |rules| :: RuleKey(rules[i].id, source, metric) != RuleKey(rules[j].id, source, metric)
  }

  lemma OtherRuleLeavesKey(env: Env, s: State, rule: Rule, source: string, metric: string, det: Result, rec: nat,
      key: string)
    requires Monotone(env) && RuleKey(rule.id, source, metric) != key && !Cooling(env, s, key)
    ensures !Cooling(env, ConsiderRule(env, s, rule, source, metric, det, rec), key)
  {
    hide RuleKey, Applies;
    assert env.times(s.ops) <= env.times(s.ops + 1) <= env.times(s.ops + 2);
  }

  lemma {:induction false} OtherRulesLeaveKey(env: Env, s: State, rules: seq<Rule>, source: string, metric: string,
      det: Result, rec: nat, key: string)
    requires Monotone(env) && !Cooling(env, s, key)
    requires forall i | 0 <= i < |rules| :: RuleKey(rules[i].id, source, metric) != key
    ensures !Cooling(env, ConsiderRules(env, s, rules, source, metric, det, rec), key)
  {
    hide ConsiderRule, Cooling, RuleKey, Monotone;
    if rules != [] {
      var n := |rules| - 1;
      OtherRulesLeaveKey(env, s, rules[..n], source, metric, det, rec, key);
      OtherRuleLeavesKey(env, ConsiderRules(env, s, rules[..n], source, metric, det, rec), rules[n],
          source, metric, det, rec, key);
    }
  }

  ghost function RulesOf(ms: seq<Match>): seq<Rule> {
    seq(|ms|, i requires 0 <= i < |ms| => ms[i].rule)
  }

  lemma RuleEffect(env: Env, s: State, rule: Rule, source: string, metric: string, det: Result, rec: nat)
    requires !s.raised
    ensures var s' := ConsiderRule(env, s, rule, source, metric, det, rec);
            var hit := Applies(rule, source, metric, det) && !Cooling(env, s, RuleKey(rule.id, source, metric));
            RulesOf(s'.matches) == RulesOf(s.matches) + if hit then [rule] else []
  {
    hide RuleKey, Applies;
  }

  lemma RaisedStays(env: Env, s: State, rules: seq<Rule>, source: string, metric: string, det: Result, rec: nat, i: nat)
    requires i <= |rules| && !ConsiderRules(env, s, rules, source, metric, det, rec).raised
    ensures !ConsiderRules(env, s, rules[..i], source, metric, det, rec).raised
  {
    if ConsiderRules(env, s, rules[..i], source, metric, det, rec).raised {
        RaisedStops(env, s, rules, source, metric, det, rec, i); }
  }

  ghost function Matching(rules: seq<Rule>, source: string, metric: string, det: Result): seq<Rule> {
    if rules == [] then []
    else
      var n := |rules| - 1;
      Matching(rules[..n], source, metric, det) + if Applies(rules[n], source, metric, det) then [rules[n]] else []
  }

  /**
   With no rule cooling and no error, a record matches exactly the rules that apply to it, in their
   order and once each: arming one rule never holds back another.
   */
  lemma {:induction false} ApplicableRulesMatch(env: Env, s: State, rules: seq<Rule>, source: string,
      metric: string, det: Result, rec: nat)
    requires Monotone(env) && DistinctKeys(rules, source, metric)
    requires !ConsiderRules(env, s, rules, source, metric, det, rec).raised
    requires forall i | 0 <= i < |rules| :: !Cooling(env, s, RuleKey(rules[i].id, source, metric))
    ensures RulesOf(ConsiderRules(env, s, rules, source, metric, det, rec).matches)
         == RulesOf(s.matches) + Matching(rules, source, metric, det)
  {
    hide Applies, ConsiderRule, Cooling, RuleKey, Monotone;
    if rules != [] {
      var n := |rules| - 1;
      var s1 := ConsiderRules(env, s, rules[..n], source, metric, det, rec);
      RaisedStays(env, s, rules, source, metric, det, rec, n);
      ApplicableRulesMatch(env, s, rules[..n], source, metric, det, rec);
      OtherRulesLeaveKey(env, s, rules[..n], source, metric, det, rec, RuleKey(rules[n].id, source, metric));
      RuleEffect(env, s1, rules[n], source, metric, det, rec);
    }
  }

  /** Both are known names, and the severity is the threshold or one above it. */
  ghost predicate Reaches(severity: string, threshold: string) {
    || (threshold == "low" && severity in {"low", "medium", "high", "critical"})
    || (threshold == "medium" && severity in {"medium", "high", "critical"})
    || (threshold == "high" && severity in {"high", "critical"})
    || (threshold == "critical" && severity == "critical")
  }

  lemma MeetsIsReaching(severity: string, threshold: string)
    ensures SeverityMeetsThreshold(severity, threshold) <==> Reaches(severity, threshold)
  {
  }

  /** The rule is for this source and metric, or for any; for this detector; and the severity reaches its threshold. */
  lemma AppliesMeans(rule: Rule, source: string, metric: string, det: Result)
    ensures Applies(rule, source, metric, det) <==>
              && rule.sourceId in {None, Some(source)} && rule.metricName in {None, Some(metric)}
              && rule.detectorType == det.detector && Reaches(det.severity, rule.severityThreshold)
  {
    MeetsIsReaching(det.severity, rule.severityThreshold);
    hide SeverityMeetsThreshold, Reaches;
  }

  lemma {:induction false} MatchingAppear(rules: seq<Rule>, source: string, metric: string, det: Result, rule: Rule)
    ensures rule in Matching(rules, source, metric, det) <==> rule in rules && Applies(rule, source, metric, det)
  {
    hide Applies;
    if rules != [] {
      var init, last := rules[..|rules| - 1], rules[|rules| - 1];
      assert rules == init + [last];
      MatchingAppear(init, source, metric, det, rule);
    }
  }

  /**
   With none cooling and no error, the rules newly matched are exactly those of the list for the record's
   source or any, for its metric or any, for its detector, and with a known threshold that the known
   severity reaches.
   */
  lemma RuleMatchesIff(env: Env, s: State, rules: seq<Rule>, source: string, metric: string, det: Result, rec: nat,
      rule: Rule)
    requires Monotone(env) && DistinctKeys(rules, source, metric)
    requires !ConsiderRules(env, s, rules, source, metric, det, rec).raised
    requires forall i | 0 <= i < |rules| :: !Cooling(env, s, RuleKey(rules[i].id, source, metric))
    ensures var ms := ConsiderRules(env, s, rules, source, metric, det, rec).matches;
            && |s.matches| <= |ms|
            && ((exists i :: |s.matches| <= i < |ms| && ms[i].rule == rule) <==>
                  && rule in rules
                  && rule.sourceId in {None, Some(source)} && rule.metricName in {None, Some(metric)}
                  && rule.detectorType == det.detector && Reaches(det.severity, rule.severityThreshold))
  {
    AppliesMeans(rule, source, metric, det);
    ApplicableRulesMatch(env, s, rules, source, metric, det, rec);
    MatchingAppear(rules, source, metric, det, rule);
    hide Applies, Reaches, Cooling, DistinctKeys, Monotone, Matching, ConsiderRules;
    var ms := ConsiderRules(env, s, rules, source, metric, det, rec).matches;
    NewRules(s.matches, ms, Matching(rules, source, metric, det), rule);
  }

  lemma NewRules(ms: seq<Match>, ms': seq<Match>, more: seq<Rule>, rule: Rule)
    requires RulesOf(ms') == RulesOf(ms) + more
    ensures |ms'| == |ms| + |more|
    ensures (exists i :: |ms| <= i < |ms'| && ms'[i].rule == rule) <==> rule in more
  {
    forall i | |ms| <= i < |ms'| ensures ms'[i].rule == more[i - |ms|] { assert ms'[i].rule == RulesOf(ms')[i]; }
    if rule in more {
      var k :| 0 <= k < |more| && more[k] == rule;
      assert ms'[|ms| + k].rule == rule;
    }
  }

  // ---- What is recorded ----

  /**
   A result adds one record, of its own fields and with the clock's next reading, exactly if it is an
   anomaly whose cooldown key is absent or has run out; otherwise nothing is recorded, matched or sent.
   */
  lemma RecordedIff(env: Env, s: State, rules: seq<Rule>, source: string, metric: string, det: Result)
    requires !s.raised
    ensures var s' := ConsiderResult(env, s, rules, source, metric, det);
            var key := RecordKey(source, metric, det.detector);
            if det.isAnomaly && (key !in s.keys || s.keys[key] <= env.times(s.ops)) then
              s'.records == s.records + [Record(source, metric, det.detector, det.severity, env.times(s.ops + 1))]
            else
              && s'.records == s.records && s'.matches == s.matches
              && s'.notifications == s.notifications && s'.keys == s.keys
  {
    hide RecordKey, ConsiderRules, Notify;
    var key := RecordKey(source, metric, det.detector);
    if det.isAnomaly && (key !in s.keys || s.keys[key] <= env.times(s.ops)) {
      var s1 := Recorded(env, s, source, metric, det);
      if !s1.raised {
        RulesOnlyMatch(env, s1, rules, source, metric, det, |s.records|);
        var s2 := ConsiderRules(env, s1, rules, source, metric, det, |s.records|);
        if !s2.raised { NotifyOnlySends(env, s2, |s1.matches|, |s2.matches|); }
      }
    }
  }

  lemma {:induction false} NotifyOnlySends(env: Env, s: State, lo: nat, hi: nat)
    requires lo <= hi
    ensures Notify(env, s, lo, hi).records == s.records && Notify(env, s, lo, hi).matches == s.matches
    decreases hi - lo
  {
    if lo < hi { NotifyOnlySends(env, s, lo, hi - 1); }
  }

  function AfterLastColon(s: string): string {
    if s == [] || s[|s| - 1] == ':' then [] else AfterLastColon(s[..|s| - 1]) + [s[|s| - 1]]
  }

  lemma {:induction false} LastColonStarts(a: string, b: string)
    requires ':' !in b
    ensures AfterLastColon(a + ":" + b) == b
  {
    var s := a + ":" + b;
    if b != [] {
      assert s[..|s| - 1] == a + ":" + b[..|b| - 1];
      LastColonStarts(a, b[..|b| - 1]);
      assert b == b[..|b| - 1] + [b[|b| - 1]];
    }
  }

  lemma SplitAtFirst(a: string, rest: string, a': string, rest': string)
    requires ':' !in a && ':' !in a' && a + ":" + rest == a' + ":" + rest'
    ensures a == a' && rest == rest'
  {
    var x := a + ":" + rest;
    FirstColonEnds(a, rest);
    FirstColonEnds(a', rest');
    assert x[..|a|] == a && x[..|a'|] == a' && x[|a| + 1..] == rest && x[|a'| + 1..] == rest';
  }

  lemma SplitAtLast(rest: string, b: string, rest': string, b': string)
    requires ':' !in b && ':' !in b' && rest + ":" + b == rest' + ":" + b'
    ensures rest == rest' && b == b'
  {
    var x := rest + ":" + b;
    LastColonStarts(rest, b);
    LastColonStarts(rest', b');
    assert x[..|rest|] == rest && x[..|rest'|] == rest';
  }

  lemma SamePrefix(p: string, x: string, y: string)
    requires p + x == p + y
    ensures x == y
  {
    assert (p + x)[|p|..] == x && (p + y)[|p|..] == y;
  }

  lemma RecordKeyIs(source: string, metric: string, detector: string)
    ensures RecordKey(source, metric, detector) == "cd:" + (source + ":" + (metric + ":" + detector))
  {
  }

  lemma RuleKeyIs(rule: string, source: string, metric: string)
    ensures RuleKey(rule, source, metric) == "rulecd:" + (rule + ":" + (source + ":" + metric))
  {
  }

  /** Sources are uuids and detectors plain names, with no colon in them, so two series do not share a cooldown. */
  lemma RecordKeysDiffer(a: Record, b: Record)
    requires ':' !in a.source && ':' !in b.source && ':' !in a.detector && ':' !in b.detector
    requires RecordKey(a.source, a.metric, a.detector) == RecordKey(b.source, b.metric, b.detector)
    ensures SameSeries(a, b)
  {
    hide RecordKey;
    var m, k := a.metric + ":" + a.detector, b.metric + ":" + b.detector;
    RecordKeyIs(a.source, a.metric, a.detector);
    RecordKeyIs(b.source, b.metric, b.detector);
    SamePrefix("cd:", a.source + ":" + m, b.source + ":" + k);
    SplitAtFirst(a.source, m, b.source, k);
    SplitAtLast(a.metric, a.detector, b.metric, b.detector);
  }

  /** Nor do two rules, nor one rule on two sources or metrics. */
  lemma RuleSeriesDiffer(a: Match, b: Match)
    requires ':' !in a.rule.id && ':' !in b.rule.id && ':' !in a.source && ':' !in b.source
    requires RuleKey(a.rule.id, a.source, a.metric) == RuleKey(b.rule.id, b.source, b.metric)
    ensures SameRule(a, b)
  {
    hide RuleKey;
    var m, k := a.source + ":" + a.metric, b.source + ":" + b.metric;
    RuleKeyIs(a.rule.id, a.source, a.metric);
    RuleKeyIs(b.rule.id, b.source, b.metric);
    SamePrefix("rulecd:", a.rule.id + ":" + m, b.rule.id + ":" + k);
    SplitAtFirst(a.rule.id, m, b.rule.id, k);
    SplitAtFirst(a.source, a.metric, b.source, b.metric);
  }

  /** So recording one series leaves the cooldown of every other as it was. */
  lemma SeriesCoolSeparately(env: Env, s: State, source: string, metric: string, det: Result, other: Record)
    requires ':' !in source && ':' !in det.detector && ':' !in other.source && ':' !in other.detector
    requires !(other.source == source && other.metric == metric && other.detector == det.detector)
    ensures var key := RecordKey(other.source, other.metric, other.detector);
            var s' := Recorded(env, s, source, metric, det);
            (key in s'.keys <==> key in s.keys) && (key in s.keys ==> s'.keys[key] == s.keys[key])
  {
    var this_ := Record(source, metric, det.detector, det.severity, 0.0);
    if RecordKey(source, metric, det.detector) == RecordKey(other.source, other.metric, other.detector) {
      RecordKeysDiffer(this_, other);
    }
    hide RecordKey;
  }

  /** Arming a key makes it last exactly its time from then on, and leaves the others; without a time it fails. */
  lemma ArmMeans(env: Env, s: State, key: string, ttl: int, t: Time)
    ensures var s' := Armed(env, s, key, ttl);
            if ttl > 0 then
              && s'.raised == s.raised && s'.keys == s.keys[key := s'.keys[key]]
              && (t < s'.keys[key] <==> t < env.times(s.ops) + ttl as real)
            else
              s'.raised && s'.keys == s.keys
  {
  }

  /** Without a source or a window there is nothing to detect. */
  lemma NothingToDetect(env: Env, s: State, call: Call)
    requires call.source == None || call.window == []
    ensures Detected(env, s, call) == s.(raised := false)
  {
  }

  /** The detectors are asked about the window's last value, with the rest of the window as history. */
  lemma LastValueIsCurrent(env: Env, s: State, call: Call, hist: seq<real>, current: real)
    requires call.source.Some? && call.window == hist + [current]
    ensures Detected(env, s, call)
         == ConsiderResults(env, s.(raised := false), call.rules, call.source.value, call.metric,
                            call.detect(hist, current))
  {
    hide ConsiderResults;
    assert call.window[..|call.window| - 1] == hist;
  }

  /** Every match of a record is then notified, once, in order. */
  lemma {:induction false} NotifyAll(env: Env, s: State, lo: nat, hi: nat)
    requires lo <= hi
    ensures var s' := Notify(env, s, lo, hi);
            && |s'.notifications| == |s.notifications| + (hi - lo) && s.notifications <= s'.notifications
            && forall j | |s.notifications| <= j < |s'.notifications| ::
                s'.notifications[j].matchIndex == lo + (j - |s.notifications|)
    decreases hi - lo
  {
    if lo < hi { NotifyAll(env, s, lo, hi - 1); }
  }

  // ---- Calls that take no time ----

  /** All readings of the clock from `lo` up to `hi` are `t`. */
  ghost predicate Still(env: Env, lo: nat, hi: nat, t: Time) {
    forall k: nat | lo <= k < hi :: env.times(k) == t
  }

  /** Each call takes no time; between calls any time may pass. */
  ghost predicate Instant(env: Env, calls: seq<Call>, ss: seq<State>) {
    |ss| == |calls| + 1 && forall i | 0 <= i < |calls| :: Still(env, ss[i].ops, ss[i + 1].ops, env.times(ss[i].ops))
  }

  /** What `s'` has beyond `s` happened at `t`, and is about what else is new. */
  ghost predicate NewAt(s: State, s': State, t: Time) {
    && s.ops <= s'.ops && s.records <= s'.records && s.matches <= s'.matches && s.notifications <= s'.notifications
    && (forall i | |s.records| <= i < |s'.records| :: s'.records[i].at == t)
    && (forall i | |s.matches| <= i < |s'.matches| :: |s.records| <= s'.matches[i].record < |s'.records|)
    && (forall i | |s.notifications| <= i < |s'.notifications| ::
          s'.notifications[i].at == t && |s.matches| <= s'.notifications[i].matchIndex < |s'.matches|)
  }

  lemma NewAtChain(s: State, s1: State, s2: State, t: Time)
    requires NewAt(s, s1, t) && NewAt(s1, s2, t)
    ensures NewAt(s, s2, t)
  {
  }

  lemma RuleOnlyMatches(env: Env, s: State, rule: Rule, source: string, metric: string, det: Result, rec: nat)
    ensures var s' := ConsiderRule(env, s, rule, source, metric, det, rec);
            && s.ops <= s'.ops && s'.records == s.records && s'.notifications == s.notifications &&
                s.matches <= s'.matches
            && forall i | |s.matches| <= i < |s'.matches| :: s'.matches[i].record == rec
  {
    hide RuleKey, Applies;
  }

  lemma {:induction false} RulesOnlyMatch(env: Env, s: State, rules: seq<Rule>, source: string, metric: string,
      det: Result, rec: nat)
    ensures var s' := ConsiderRules(env, s, rules, source, metric, det, rec);
            && s.ops <= s'.ops && s'.records == s.records && s'.notifications == s.notifications &&
                s.matches <= s'.matches
            && forall i | |s.matches| <= i < |s'.matches| :: s'.matches[i].record == rec
  {
    hide ConsiderRule;
    if rules != [] {
      var n := |rules| - 1;
      RulesOnlyMatch(env, s, rules[..n], source, metric, det, rec);
      RuleOnlyMatches(env, ConsiderRules(env, s, rules[..n], source, metric, det, rec), rules[n],
          source, metric, det, rec);
    }
  }

  lemma {:induction false} NotifyAt(env: Env, s: State, lo: nat, hi: nat, t: Time)
    requires lo <= hi && Still(env, s.ops, Notify(env, s, lo, hi).ops, t)
    ensures var s' := Notify(env, s, lo, hi);
            && s.ops <= s'.ops && s'.records == s.records && s'.matches == s.matches &&
                s.notifications <= s'.notifications
            && forall i | |s.notifications| <= i < |s'.notifications| ::
                 s'.notifications[i].at == t && lo <= s'.notifications[i].matchIndex < hi
    decreases hi - lo
  {
    if lo < hi {
      NotifyOps(env, s, lo, hi);
      NotifyOps(env, s, lo, hi - 1);
      NotifyAt(env, s, lo, hi - 1, t);
    }
  }

  lemma {:induction false} NotifyOps(env: Env, s: State, lo: nat, hi: nat)
    requires lo <= hi
    ensures Notify(env, s, lo, hi).ops == s.ops + (hi - lo)
    decreases hi - lo
  {
    if lo < hi { NotifyOps(env, s, lo, hi - 1); }
  }

  lemma ResultAt(env: Env, s: State, rules: seq<Rule>, source: string, metric: string, det: Result, t: Time)
    requires Still(env, s.ops, ConsiderResult(env, s, rules, source, metric, det).ops, t)
    ensures NewAt(s, ConsiderResult(env, s, rules, source, metric, det), t)
  {
    hide RecordKey, ConsiderRules, Notify;
    if !s.raised && det.isAnomaly && !Cooling(env, s, RecordKey(source, metric, det.detector)) {
      var s1 := Recorded(env, s, source, metric, det);
      if !s1.raised {
        var s2 := ConsiderRules(env, s1, rules, source, metric, det, |s.records|);
        RulesOnlyMatch(env, s1, rules, source, metric, det, |s.records|);
        if !s2.raised {
          NotifyOps(env, s2, |s1.matches|, |s2.matches|);
          NotifyAt(env, s2, |s1.matches|, |s2.matches|, t);
        }
      }
    }
  }

  lemma ResultOps(env: Env, s: State, rules: seq<Rule>, source: string, metric: string, det: Result)
    ensures s.ops <= ConsiderResult(env, s, rules, source, metric, det).ops
  {
    hide RecordKey, ConsiderRules, Notify;
    if !s.raised && det.isAnomaly && !Cooling(env, s, RecordKey(source, metric, det.detector)) {
      var s1 := Recorded(env, s, source, metric, det);
      RulesOnlyMatch(env, s1, rules, source, metric, det, |s.records|);
      var s2 := ConsiderRules(env, s1, rules, source, metric, det, |s.records|);
      NotifyOps(env, s2, |s1.matches|, |s2.matches|);
    }
  }

  lemma {:induction false} ResultsAt(env: Env, s: State, rules: seq<Rule>, source: string, metric: string,
      results: seq<Result>, t: Time)
    requires Still(env, s.ops, ConsiderResults(env, s, rules, source, metric, results).ops, t)
    ensures NewAt(s, ConsiderResults(env, s, rules, source, metric, results), t)
  {
    hide ConsiderResult;
    if results != [] {
      var n := |results| - 1;
      var s1 := ConsiderResults(env, s, rules, source, metric, results[..n]);
      ResultOps(env, s1, rules, source, metric, results[n]);
      ResultsAt(env, s, rules, source, metric, results[..n], t);
      ResultAt(env, s1, rules, source, metric, results[n], t);
      NewAtChain(s, s1, ConsiderResult(env, s1, rules, source, metric, results[n]), t);
    }
  }

  lemma CallAt(env: Env, s: State, call: Call, t: Time)
    requires Still(env, s.ops, Detected(env, s, call).ops, t)
    ensures NewAt(s, Detected(env, s, call), t)
  {
    hide ConsiderResults;
    if call.source.Some? && call.window != [] {
      var n := |call.window| - 1;
      ResultsAt(env, s.(raised := false), call.rules, call.source.value, call.metric,
        call.detect(call.window[..n], call.window[n]), t);
    }
  }

  ghost predicate NoLag(s: State) {
    forall k | 0 <= k < |s.notifications| ::
      && s.notifications[k].matchIndex < |s.matches| && s.matches[s.notifications[k].matchIndex].record < |s.records|
      && Lag(s, k) == 0.0
  }

  lemma NewHasNoLag(s: State, s': State, t: Time)
    requires NoLag(s) && NewAt(s, s', t)
    ensures NoLag(s')
  {
    forall k | 0 <= k < |s'.notifications|
      ensures s'.notifications[k].matchIndex < |s'.matches|
      ensures s'.matches[s'.notifications[k].matchIndex].record < |s'.records|
      ensures Lag(s', k) == 0.0
    {
      if k < |s.notifications| { assert s'.notifications[k] == s.notifications[k] && Lag(s, k) == 0.0; }
    }
  }

  lemma {:induction false} InstantRunHasNoLag(env: Env, calls: seq<Call>, ss: seq<State>, i: nat)
    requires Run(env, calls, ss) && Instant(env, calls, ss) && i < |ss|
    ensures NoLag(ss[i])
  {
    if i > 0 {
      InstantRunHasNoLag(env, calls, ss, i - 1);
      assert ss[i - 1 + 1] == Detected(env, ss[i - 1], calls[i - 1]);
      var t := env.times(ss[i - 1].ops);
      assert Still(env, ss[i - 1].ops, ss[i - 1 + 1].ops, t);
      hide Run, Detected, Still, NewAt;
      CallAt(env, ss[i - 1], calls[i - 1], t);
      NewHasNoLag(ss[i - 1], ss[i], t);
    }
  }

  /** If calls take no time, two notifications are at least the longer cooldown apart. */
  lemma InstantNotificationsAreSpaced(env: Env, calls: seq<Call>, ss: seq<State>, i: nat, a: nat, b: nat)
    requires Run(env, calls, ss) && Instant(env, calls, ss) && i < |ss| && SameAlarm(ss[i], a, b)
    ensures ss[i].notifications[b].at - ss[i].notifications[a].at >= LongerCooldown(env, ss[i], a)
  {
    hide Run, Instant;
    NotificationsAreSpaced(env, calls, ss, i, a, b);
    InstantRunHasNoLag(env, calls, ss, i);
    assert Lag(ss[i], a) == 0.0;
  }

  // ---- The bound is attained ----

  lemma KeysAreApart(source: string, metric: string, detector: string, rule: string)
    ensures RecordKey(source, metric, detector) != RuleKey(rule, source, metric)
  {
    assert RecordKey(source, metric, detector)[0] == 'c' && RuleKey(rule, source, metric)[0] == 'r';
  }

  /** A result that one rule watches, neither cooling: a record, a match and a notification, in six commands. */
  lemma Alarm(env: Env, s: State, rule: Rule, source: string, metric: string, det: Result) returns (s': State)
    requires !s.raised && det.isAnomaly && Applies(rule, source, metric, det)
    requires env.cooldown > 0 && rule.cooldownSeconds > 0
    requires !Cooling(env, s, RecordKey(source, metric, det.detector))
    requires var key := RuleKey(rule.id, source, metric); key in s.keys ==> s.keys[key] <= env.times(s.ops + 3)
    ensures s' == ConsiderResult(env, s, [rule], source, metric, det)
    ensures s'.ops == s.ops + 6 && !s'.raised
    ensures s'.keys == s.keys[RecordKey(source, metric, det.detector) := env.times(s.ops + 2) + env.cooldown as real]
                             [RuleKey(rule.id, source, metric) := env.times(s.ops + 4) + rule.cooldownSeconds as real]
    ensures s'.records == s.records + [Record(source, metric, det.detector, det.severity, env.times(s.ops + 1))]
    ensures s'.matches == s.matches + [Match(rule, source, metric, |s.records|, env.times(s.ops + 3))]
    ensures s'.notifications == s.notifications + [Notification(|s.matches|, env.times(s.ops + 5))]
  {
    KeysAreApart(source, metric, det.detector, rule.id);
    hide RecordKey, RuleKey, Applies;
    var s1 := Recorded(env, s, source, metric, det);
    assert [rule][..0] == [];
    assert ConsiderRules(env, s1, [], source, metric, det, |s.records|) == s1;
    var s2 := ConsiderRules(env, s1, [rule], source, metric, det, |s.records|);
    assert s2 == ConsiderRule(env, s1, rule, source, metric, det, |s.records|);
    assert Notify(env, s2, |s1.matches|, |s1.matches|) == s2;
    s' := Notify(env, s2, |s1.matches|, |s2.matches|);
  }

  const RULE_ID := "r"

  function AlarmRule(cooldown: int): Rule {
    Rule(RULE_ID, None, None, "zscore", "low", cooldown)
  }

  function AlarmResult(): Result {
    Result(true, "zscore", "high")
  }

  function AlarmCall(cooldown: int): Call {
    Call(Some("source"), "cpu", [1.0], [AlarmRule(cooldown)], (hist, current) => [AlarmResult()])
  }

  /** The first call is instant but for its delivery, `lag` late; the second comes when the longer cooldown is over. */
  function LateTimes(longer: real, lag: real): nat -> Time {
    n => if n <= 4 then 0.0 else if n == 5 then lag else longer
  }

  lemma AlarmCalled(env: Env, s: State, cooldown: int)
    requires !s.raised
    ensures Detected(env, s, AlarmCall(cooldown))
         == ConsiderResult(env, s, [AlarmRule(cooldown)], "source", "cpu", AlarmResult())
  {
    var call, rules, results := AlarmCall(cooldown), [AlarmRule(cooldown)], [AlarmResult()];
    assert call.detect(call.window[..0], call.window[0]) == results;
    hide ConsiderResult;
    assert s.(raised := false) == s;
    assert results[..0] == [];
    assert ConsiderResults(env, s, rules, "source", "cpu", []) == s;
    assert ConsiderResults(env, s, rules, "source", "cpu", results) ==
        ConsiderResult(env, s, rules, "source", "cpu", results[0]);
  }

  lemma AlarmApplies(cooldown: int)
    ensures Applies(AlarmRule(cooldown), "source", "cpu", AlarmResult())
  {
  }

  lemma LateIsMonotone(env: Env, longer: real, lag: real)
    requires 0.0 <= lag <= longer && env.times == LateTimes(longer, lag)
    ensures Monotone(env)
  {
  }

  function Quiet(): State {
    State(0, map[], [], [], [], false)
  }

  lemma TwoAlarms(env: Env, cd: int, longer: real) returns (s1: State, s2: State)
    requires env.cooldown > 0 && cd > 0 && longer >= cd as real && longer >= env.cooldown as real
    requires forall k: nat | k <= 4 :: env.times(k) == 0.0
    requires forall k: nat | k >= 6 :: env.times(k) == longer
    ensures s1 == Detected(env, Quiet(), AlarmCall(cd)) && s2 == Detected(env, s1, AlarmCall(cd))
    ensures |s2.records| == |s2.matches| == |s2.notifications| == 2
    ensures s2.records[0].at == 0.0
    ensures forall k | 0 <= k < 2 :: s2.matches[k].rule == AlarmRule(cd) && s2.matches[k].record == k
    ensures forall k | 0 <= k < 2 :: s2.matches[k].source == "source" && s2.matches[k].metric == "cpu"
    ensures s2.notifications == [Notification(0, env.times(5)), Notification(1, longer)]
  {
    var rule, det := AlarmRule(cd), AlarmResult();
    AlarmApplies(cd);
    KeysAreApart("source", "cpu", "zscore", RULE_ID);
    hide Applies, Detected, ConsiderResult, RecordKey, RuleKey;
    AlarmCalled(env, Quiet(), cd);
    s1 := Alarm(env, Quiet(), rule, "source", "cpu", det);
    AlarmCalled(env, s1, cd);
    s2 := Alarm(env, s1, rule, "source", "cpu", det);
  }

  /**
   No better bound holds: for any two cooldowns and any lag up to the longer of them there is a run with
   two notifications exactly that much closer than the longer cooldown.
   */
  lemma SpacingIsTight(c: int, cd: int, lag: real) returns (env: Env, calls: seq<Call>, ss: seq<State>)
    requires c > 0 && cd > 0 && 0.0 <= lag <= (if cd >= c then cd as real else c as real)
    ensures Run(env, calls, ss) && env.cooldown == c && |ss| == 3 && SameAlarm(ss[2], 0, 1)
    ensures ss[2].matches[ss[2].notifications[0].matchIndex].rule.cooldownSeconds == cd && Lag(ss[2], 0) == lag
    ensures ss[2].notifications[1].at - ss[2].notifications[0].at == LongerCooldown(env, ss[2], 0) - lag
  {
    var longer := if cd >= c then cd as real else c as real;
    env := Env(LateTimes(longer, lag), c);
    LateIsMonotone(env, longer, lag);
    var s1, s2 := TwoAlarms(env, cd, longer);
    calls, ss := [AlarmCall(cd), AlarmCall(cd)], [Quiet(), s1, s2];
    assert DistinctRules(AlarmCall(cd).rules);
    hide Detected, Monotone, DistinctRules;
  }

  /** With both cooldowns at ten seconds, a first delivery nine seconds late is followed by the second after one. */
  lemma SlowDeliveryBringsNotificationsCloser() returns (env: Env, calls: seq<Call>, ss: seq<State>)
    ensures Run(env, calls, ss) && env.cooldown == 10 && |ss| == 3 && SameAlarm(ss[2], 0, 1)
    ensures LongerCooldown(env, ss[2], 0) == 10.0 && ss[2].notifications[1].at - ss[2].notifications[0].at == 1.0
  {
    hide Run;
    env, calls, ss := SpacingIsTight(10, 10, 9.0);
  }
}
