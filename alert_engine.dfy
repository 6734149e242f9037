/** The stagnant-production alert engine of the alert centre: the production
    counter simulator, the detector that raises and refreshes one rule alert
    per stagnant machine, the idle threshold, and the sorted alert view.

    Each timer tick is an explicit method call: `now` is passed in
    milliseconds and the simulator's random draws are passed in as a map from
    machine id to increment. */
module AlertEngine {
  import opened Wrappers
  import opened Seqs
  import opened Strings
  import opened Alerts
  import opened Records

  // ----- The idle threshold -----

  /** The value of `Number(text)`. */
  datatype JsNumber = Num(v: real) | NaN | PosInf | NegInf

  /** An idle threshold in minutes. The live input can hold `Infinity`,
      which is `Unbounded`. */
  datatype Limit = Minutes(m: real) | Unbounded

  /** `Math.round`: the nearest integer, halves rounding up. */
  function Round(x: real): (n: int)
    ensures n as real - 0.5 <= x < n as real + 0.5
  {
    (x + 0.5).Floor
  }

  /** The threshold taken from the `idleMin` query parameter when the page
      opens: used, rounded, only when it is a finite positive number. */
  function InitialThreshold(query: JsNumber): (t: int)
    ensures t >= 0
    ensures query.Num? && query.v > 0.0 ==> t as real - 0.5 <= query.v < t as real + 0.5
    ensures !(query.Num? && query.v > 0.0) ==> t == 10
  {
    if query.Num? && query.v > 0.0 then Round(query.v) else 10
  }

  /** The threshold stored by a live edit, `Math.max(1, Number(v) || 1)`:
      `NaN` and `0` are falsy and become 1, and nothing below 1 is stored. */
  function LiveThreshold(input: JsNumber): (l: Limit)
    ensures l.Unbounded? <==> input.PosInf?
    ensures l.Minutes? ==> l.m >= 1.0
    ensures input.Num? && input.v >= 1.0 ==> l == Minutes(input.v)
    ensures input.NaN? || input.NegInf? || (input.Num? && input.v < 1.0) ==> l == Minutes(1.0)
  {
    var n := if input.NaN? || input == Num(0.0) then Num(1.0) else input;
    match n
    case Num(v) => Minutes(if v < 1.0 then 1.0 else v)
    case PosInf => Unbounded
    case NegInf => Minutes(1.0)
    case NaN => Minutes(1.0)
  }

  /** `Math.max(1, idleThresholdMinutes)`. */
  function EffectiveMinutes(m: real): (e: real)
    ensures e >= 1.0 && e >= m
    ensures e == 1.0 || e == m
  {
    if m < 1.0 then 1.0 else m
  }

  /** A machine idle for `stagnantMs` milliseconds is stagnant when that
      reaches the effective threshold; an infinite threshold is never
      reached. */
  predicate IsStagnant(stagnantMs: int, limit: Limit) {
    limit.Minutes? && stagnantMs as real >= EffectiveMinutes(limit.m) * 60000.0
  }

  /** For a whole-minute threshold the boundary is inclusive and sits at
      exactly `max(1, t)` minutes. */
  lemma StagnantBoundary(stagnantMs: int, t: int)
    ensures IsStagnant(stagnantMs, Minutes(t as real)) <==> stagnantMs >= (if t < 1 then 1 else t) * 60000
  {
  }

  /** `Math.max(0, Math.floor(stagnantMs / 60000))`. */
  function StagnantMinutes(stagnantMs: int): (n: nat)
    ensures stagnantMs >= 0 ==> n * 60000 <= stagnantMs < n * 60000 + 60000
    ensures stagnantMs < 0 ==> n == 0
  {
    if stagnantMs < 0 then 0 else stagnantMs / 60000
  }

  /** The minutes reported by a stagnation alert are at least one and at
      least the threshold rounded down (the threshold itself when it is a
      whole number of minutes). */
  lemma StagnantMinutesReachThreshold(stagnantMs: int, m: real)
    requires IsStagnant(stagnantMs, Minutes(m))
    ensures StagnantMinutes(stagnantMs) >= 1
    ensures StagnantMinutes(stagnantMs) as real > EffectiveMinutes(m) - 1.0
    ensures StagnantMinutes(stagnantMs) >= EffectiveMinutes(m).Floor
  {
    var n := StagnantMinutes(stagnantMs);
    var e := EffectiveMinutes(m);
    assert ((n + 1) * 60000) as real > stagnantMs as real >= e * 60000.0;
    assert (n + 1) as real > e;
  }

  // ----- What the detector reads -----

  /** The state one detector tick reads: the clock, the time of each
      machine's last counter increase, the counters and the threshold. */
  datatype Readings = Readings(
    now: int,
    lastIncreaseAt: map<string, int>,
    counters: map<string, nat>,
    limit: Limit)

  /** Milliseconds since the machine's counter last increased; a machine
      with no recorded increase counts as increased `now`. */
  function StagnantMs(machineId: string, env: Readings): int {
    env.now - Lookup(env.lastIncreaseAt, machineId, env.now)
  }

  predicate StagnantAt(machineId: string, env: Readings) {
    IsStagnant(StagnantMs(machineId, env), env.limit)
  }

  /** A machine with no recorded increase is never stagnant. */
  lemma UnrecordedNeverStagnant(machineId: string, env: Readings)
    requires machineId !in env.lastIncreaseAt
    ensures !StagnantAt(machineId, env)
  {
  }

  // ----- The rule alert -----

  const RulePrefix: string := "rule-stagnant-production-"

  /** The deterministic id of a machine's stagnation alert. */
  function RuleId(machineId: string): (r: string)
    ensures RulePrefix <= r && r[|RulePrefix|..] == machineId
  {
    RulePrefix + machineId
  }

  lemma RuleIdInjective(x: string, y: string)
    requires RuleId(x) == RuleId(y)
    ensures x == y
  {
  }

  function StagnationTitle(machineId: string): string {
    "Producción sin avance en " + ToUpper(machineId)
  }

  // The text pieces after each number; each begins with a space.
  const MessageMiddle: string := " " + "min (contador actual: "
  const MessageTail: string := " " + "uds). Verifica operación, abastecimiento y registro."

  function MessageHead(machineId: string): string {
    "La máquina " + ToUpper(machineId) + " está encendida pero la producción no ha incrementado en "
  }

  function StagnationMessage(machineId: string, minutes: nat, count: nat): string {
    MessageHead(machineId) + NatToString(minutes) + MessageMiddle + NatToString(count) + MessageTail
  }

  /** Two decimal numbers between the same fixed text pieces can be read
      back: each piece after a number starts with a non-digit. */
  lemma TemplateInjective(h: string, d1: string, e1: string, d2: string, e2: string, mid: string, tail: string)
    requires AllDigits(d1) && AllDigits(e1) && AllDigits(d2) && AllDigits(e2)
    requires mid != [] && !IsDigit(mid[0]) && tail != [] && !IsDigit(tail[0])
    requires h + d1 + mid + e1 + tail == h + d2 + mid + e2 + tail
    ensures d1 == d2 && e1 == e2
  {
    var rest1, rest2 := mid + e1 + tail, mid + e2 + tail;
    assert d1 + rest1 == (h + d1 + mid + e1 + tail)[|h|..];
    assert d2 + rest2 == (h + d2 + mid + e2 + tail)[|h|..];
    DigitsSplit(d1, rest1, d2, rest2);
    assert e1 + tail == rest1[|mid|..];
    assert e2 + tail == rest2[|mid|..];
    DigitsSplit(e1, tail, e2, tail);
  }

  /** The message changes exactly when the reported minutes or the counter
      change, so "the message differs" in the refresh rule means "minutes or
      counter changed". */
  lemma MessageDetermines(machineId: string, m1: nat, c1: nat, m2: nat, c2: nat)
    ensures StagnationMessage(machineId, m1, c1) == StagnationMessage(machineId, m2, c2)
      <==> m1 == m2 && c1 == c2
  {
    if StagnationMessage(machineId, m1, c1) == StagnationMessage(machineId, m2, c2) {
      assert MessageMiddle[0] == ' ' && MessageTail[0] == ' ';
      TemplateInjective(MessageHead(machineId), NatToString(m1), NatToString(c1),
                        NatToString(m2), NatToString(c2), MessageMiddle, MessageTail);
      NatToStringInjective(m1, m2);
      NatToStringInjective(c1, c2);
    }
  }

  /** The message the detector writes for a stagnant machine now. */
  function CurrentMessage(machineId: string, env: Readings): string {
    StagnationMessage(machineId, StagnantMinutes(StagnantMs(machineId, env)), Lookup(env.counters, machineId, 0))
  }

  /** An alert that needs no refresh: current message, unread and
      awaiting action. */
  predicate Settled(e: Alert, machineId: string, env: Readings) {
    Current(e, CurrentMessage(machineId, env))
  }

  /** An alert carrying `message`, unread and awaiting action. */
  predicate Current(e: Alert, message: string) {
    e.message == message && !e.isRead && e.actionRequired
  }

  /** Two alerts agree on everything a refresh keeps. */
  predicate SameIdentity(x: Alert, y: Alert) {
    && x.id == y.id && x.kind == y.kind && x.category == y.category
    && x.title == y.title && x.machineId == y.machineId && x.employeeId == y.employeeId
  }

  /** A freshly raised stagnation alert for `machineId`. */
  predicate IsNewRuleAlert(e: Alert, machineId: string, env: Readings) {
    && e.id == RuleId(machineId) && e.kind == Warning && e.category == Production
    && e.title == StagnationTitle(machineId) && e.machineId == Some(machineId)
    && e.employeeId == None && e.timestamp == env.now && Settled(e, machineId, env)
  }

  function RuleAlert(machineId: string, message: string, now: int): Alert {
    Alert(RuleId(machineId), Warning, Production, StagnationTitle(machineId),
          message, now, false, Some(machineId), None, true)
  }

  /** `findIndex` on the ids: the first position holding `x`, or -1. */
  function FindIndex(ids: seq<string>, x: string): (k: int)
    ensures -1 <= k < |ids|
    ensures k == -1 <==> x !in ids
    ensures 0 <= k ==> ids[k] == x && x !in ids[..k]
  {
    if ids == [] then -1
    else if ids[0] == x then 0
    else
      var k := FindIndex(ids[1..], x);
      if k == -1 then -1
      else
        assert ids[..k + 1] == [ids[0]] + ids[1..][..k];
        k + 1
  }

  /** A different id put in front shifts the first occurrence by one. */
  lemma FindIndexCons(y: string, ids: seq<string>, x: string)
    requires x != y
    ensures FindIndex([y] + ids, x) == if x in ids then FindIndex(ids, x) + 1 else -1
  {
    var k := FindIndex([y] + ids, x);
    if x in ids {
      assert k >= 1;
      assert ([y] + ids)[..k] == [y] + ids[..k - 1];
      var j := FindIndex(ids, x);
      assert ([y] + ids)[..j + 1] == [y] + ids[..j];
    }
  }

  /** The refreshed copy of an existing rule alert. */
  function Reopened(e: Alert, message: string, now: int): Alert {
    e.(message := message, timestamp := now, isRead := false, actionRequired := true)
  }

  /** What the detector does for a stagnant machine once its message is
      written: a first detection puts a new rule alert in front; a later one
      brings the first alert with the rule id up to date in place, and only
      when it was read, resolved or carries another message. */
  function Refresh(a: seq<Alert>, machineId: string, message: string, now: int): seq<Alert> {
    var k := FindIndex(Ids(a), RuleId(machineId));
    if k == -1 then [RuleAlert(machineId, message, now)] + a
    else
      var existing := a[k];
      var shouldReopen := existing.isRead || !existing.actionRequired;
      if shouldReopen || existing.message != message then
        a[..k] + [Reopened(existing, message, now)] + a[k + 1..]
      else a
  }

  /** A first detection puts exactly one new rule alert in front; a later
      one changes only the first alert with the rule id, keeps its identity,
      leaves it as it was when it already carried the message unread and
      awaiting action, and otherwise stamps it with `now`. */
  lemma RefreshSpec(a: seq<Alert>, machineId: string, message: string, now: int)
    ensures var r := Refresh(a, machineId, message, now);
      && (RuleId(machineId) !in Ids(a) ==> r == [RuleAlert(machineId, message, now)] + a)
      && (RuleId(machineId) in Ids(a) ==>
            var k := FindIndex(Ids(a), RuleId(machineId));
            && |r| == |a|
            && (forall j :: 0 <= j < |a| && j != k ==> r[j] == a[j])
            && SameIdentity(r[k], a[k]) && Current(r[k], message)
            && (Current(a[k], message) ==> r[k] == a[k])
            && (!Current(a[k], message) ==> r[k].timestamp == now))
  {
    var k := FindIndex(Ids(a), RuleId(machineId));
    if k != -1 {
      SpliceIsUpdate(a, k, Reopened(a[k], message, now));
    }
  }

  /** The body of the detector's loop for a stagnant machine, once the
      index of its rule alert is looked up and its message written. */
  method RefreshStep(next: seq<Alert>, machineId: string, existingIndex: int, message: string, now: int)
    returns (r: seq<Alert>)
    requires existingIndex == FindIndex(Ids(next), RuleId(machineId))
    ensures r == Refresh(next, machineId, message, now)
  {
    if existingIndex == -1 {
      r := [RuleAlert(machineId, message, now)] + next;
    } else {
      var existing := next[existingIndex];
      var shouldReopen := existing.isRead || !existing.actionRequired;
      if shouldReopen || existing.message != message {
        r := next[..existingIndex] + [Reopened(existing, message, now)] + next[existingIndex + 1..];
      } else {
        r := next;
      }
    }
  }

  /** One pass of the detector's loop body, for one active machine, with
      the readings taken at the tick. */
  method DetectorStep(next: seq<Alert>, machineId: string, env: Readings) returns (r: seq<Alert>)
    ensures r == DetectOne(next, machineId, env)
  {
    var lastIncreaseAt := Lookup(env.lastIncreaseAt, machineId, env.now);
    var stagnantMs := env.now - lastIncreaseAt;
    var isStagnant := IsStagnant(stagnantMs, env.limit);
    var ruleAlertId := RuleId(machineId);
    var existingIndex := FindIndex(Ids(next), ruleAlertId);
    DetectOneUnfold(next, machineId, env);
    assert stagnantMs == StagnantMs(machineId, env);
    r := next;
    if isStagnant {
      var minutes := StagnantMinutes(stagnantMs);
      var currentCount := Lookup(env.counters, machineId, 0);
      var message := StagnationMessage(machineId, minutes, currentCount);
      assert message == CurrentMessage(machineId, env);
      r := RefreshStep(next, machineId, existingIndex, message, env.now);
    }
  }

  /** A detector step is the refresh with the current message, for a
      stagnant machine, and no change otherwise. */
  lemma DetectOneUnfold(a: seq<Alert>, machineId: string, env: Readings)
    ensures DetectOne(a, machineId, env)
      == if StagnantAt(machineId, env) then Refresh(a, machineId, CurrentMessage(machineId, env), env.now) else a
  {
  }

  /** One step of the detector's fold, for one active machine. */
  function DetectOne(a: seq<Alert>, machineId: string, env: Readings): (r: seq<Alert>)
    // a machine that is not stagnant changes nothing
    ensures !StagnantAt(machineId, env) ==> r == a
    // first detection: exactly one new alert is put in front
    ensures StagnantAt(machineId, env) && RuleId(machineId) !in Ids(a) ==>
      |r| == |a| + 1 && r[1..] == a && IsNewRuleAlert(r[0], machineId, env)
    // later detections: the first alert with the rule id is brought up to
    // date in place, and only when it was read, resolved or out of date
    ensures StagnantAt(machineId, env) && RuleId(machineId) in Ids(a) ==>
      var k := FindIndex(Ids(a), RuleId(machineId));
      && |r| == |a|
      && (forall j :: 0 <= j < |a| && j != k ==> r[j] == a[j])
      && SameIdentity(r[k], a[k]) && Settled(r[k], machineId, env)
      && (Settled(a[k], machineId, env) ==> r[k] == a[k])
      && (!Settled(a[k], machineId, env) ==> r[k].timestamp == env.now)
  {
    if !StagnantAt(machineId, env) then a
    else
      RefreshSpec(a, machineId, CurrentMessage(machineId, env), env.now);
      Refresh(a, machineId, CurrentMessage(machineId, env), env.now)
  }

  /** The detector tick: `DetectOne` folded over the active machine ids in
      order, each step seeing the list the previous steps produced. */
  function Detect(a: seq<Alert>, ids: seq<string>, env: Readings): seq<Alert>
    decreases |ids|
  {
    if ids == [] then a
    else DetectOne(Detect(a, ids[..|ids| - 1], env), ids[|ids| - 1], env)
  }

  /** One more id in the fold is one more detector step. */
  lemma DetectStep(a: seq<Alert>, ids: seq<string>, i: int, env: Readings)
    requires 0 <= i < |ids|
    ensures Detect(a, ids[..i + 1], env) == DetectOne(Detect(a, ids[..i], env), ids[i], env)
  {
    assert ids[..i + 1][..i] == ids[..i];
  }

  /** `x` is the rule id of a machine among `ids` that is stagnant. */
  predicate RefreshedBy(x: string, ids: seq<string>, env: Readings) {
    RulePrefix <= x && x[|RulePrefix|..] in ids && StagnantAt(x[|RulePrefix|..], env)
  }

  /** Refreshing keeps the ids, or puts the rule id in front of them when it
      was missing. */
  lemma RefreshIds(a: seq<Alert>, machineId: string, message: string, now: int)
    ensures var r := Refresh(a, machineId, message, now);
      if RuleId(machineId) in Ids(a) then Ids(r) == Ids(a) else Ids(r) == [RuleId(machineId)] + Ids(a)
  {
    var r := Refresh(a, machineId, message, now);
    RefreshSpec(a, machineId, message, now);
    if RuleId(machineId) in Ids(a) {
      assert forall j :: 0 <= j < |r| ==> Ids(r)[j] == Ids(a)[j];
    } else {
      assert forall j :: 0 <= j < |r| ==> Ids(r)[j] == ([RuleId(machineId)] + Ids(a))[j];
    }
  }

  /** A detector step either keeps the ids or puts one new rule id in front
      of them. */
  lemma DetectOneIds(a: seq<Alert>, machineId: string, env: Readings)
    ensures var r := DetectOne(a, machineId, env);
      Ids(r) == Ids(a) || (Ids(r) == [RuleId(machineId)] + Ids(a) && RuleId(machineId) !in Ids(a))
  {
    if StagnantAt(machineId, env) {
      RefreshIds(a, machineId, CurrentMessage(machineId, env), env.now);
    }
  }

  /** `t` is `a` alert by alert with the same identity, and differs from it
      only at rule alerts of stagnant machines among `ids`. */
  ghost predicate Survives(a: seq<Alert>, t: seq<Alert>, ids: seq<string>, env: Readings) {
    && |t| == |a|
    && (forall i :: 0 <= i < |a| ==> SameIdentity(t[i], a[i]))
    && (forall i :: 0 <= i < |a| && !RefreshedBy(a[i].id, ids, env) ==> t[i] == a[i])
  }

  /** Every alert of `f` is a rule alert of a stagnant machine among `ids`
      whose id is not in `a`. */
  ghost predicate NewRuleAlerts(f: seq<Alert>, a: seq<Alert>, ids: seq<string>, env: Readings) {
    forall i :: 0 <= i < |f| ==> RefreshedBy(f[i].id, ids, env) && f[i].id !in Ids(a)
  }

  /** `r` keeps the list `a` as a suffix that survives it, and what stands in
      front of that suffix are new rule alerts. */
  ghost predicate KeepsOld(a: seq<Alert>, r: seq<Alert>, ids: seq<string>, env: Readings) {
    |a| <= |r| && Survives(a, r[|r| - |a|..], ids, env) && NewRuleAlerts(r[..|r| - |a|], a, ids, env)
  }

  lemma KeepsOldWiden(a: seq<Alert>, b: seq<Alert>, front: seq<string>, ids: seq<string>, env: Readings)
    requires KeepsOld(a, b, front, env)
    requires forall m :: m in front ==> m in ids
    ensures KeepsOld(a, b, ids, env)
  {
    forall x | RefreshedBy(x, front, env) ensures RefreshedBy(x, ids, env) {
    }
  }

  lemma KeepsOldPrepend(a: seq<Alert>, b: seq<Alert>, e: Alert, ids: seq<string>, env: Readings)
    requires KeepsOld(a, b, ids, env)
    requires RefreshedBy(e.id, ids, env) && e.id !in Ids(b)
    ensures KeepsOld(a, [e] + b, ids, env)
  {
    var r, pb := [e] + b, |b| - |a|;
    assert r[|r| - |a|..] == b[pb..];
    assert r[..|r| - |a|] == [e] + b[..pb];
    assert e.id !in Ids(a) by {
      SurvivorsKeepIds(a, b[pb..], ids, env);
      IdsOfSuffix(b, pb);
    }
  }

  /** Alerts that survive `a` carry `a`'s ids. */
  lemma SurvivorsKeepIds(a: seq<Alert>, t: seq<Alert>, ids: seq<string>, env: Readings)
    requires Survives(a, t, ids, env)
    ensures Ids(t) == Ids(a)
  {
    assert forall i :: 0 <= i < |a| ==> Ids(t)[i] == Ids(a)[i];
  }

  lemma IdsOfSuffix(s: seq<Alert>, n: int)
    requires 0 <= n <= |s|
    ensures Ids(s[n..]) == Ids(s)[n..]
  {
    assert forall i :: 0 <= i < |s| - n ==> Ids(s[n..])[i] == Ids(s)[n..][i];
  }

  lemma KeepsOldReplace(a: seq<Alert>, b: seq<Alert>, k: int, e: Alert, ids: seq<string>, env: Readings)
    requires KeepsOld(a, b, ids, env)
    requires 0 <= k < |b| && SameIdentity(e, b[k]) && RefreshedBy(b[k].id, ids, env)
    ensures KeepsOld(a, b[k := e], ids, env)
  {
    var r, pb := b[k := e], |b| - |a|;
    if k >= pb {
      assert r[pb..] == b[pb..][k - pb := e];
      assert r[..pb] == b[..pb];
      assert a[k - pb].id == b[pb..][k - pb].id;
    } else {
      assert r[pb..] == b[pb..];
      assert r[..pb] == b[..pb][k := e];
    }
  }

  /** The detector never removes or reorders alerts: the old list survives as
      a suffix, alert by alert with the same identity, and an old alert only
      changes when it is the rule alert of a stagnant active machine. What
      comes in front are new rule alerts of stagnant active machines whose
      ids were not in the old list. */
  lemma {:induction false} DetectKeepsOld(a: seq<Alert>, ids: seq<string>, env: Readings)
    ensures KeepsOld(a, Detect(a, ids, env), ids, env)
    decreases |ids|
  {
    if ids == [] {
      assert a[|a| - |a|..] == a;
    } else {
      var front, last := ids[..|ids| - 1], ids[|ids| - 1];
      DetectKeepsOld(a, front, env);
      var b := Detect(a, front, env);
      KeepsOldWiden(a, b, front, ids, env);
      var r := DetectOne(b, last, env);
      assert Detect(a, ids, env) == r;
      if StagnantAt(last, env) {
        assert RefreshedBy(RuleId(last), ids, env);
        if RuleId(last) !in Ids(b) {
          assert r == [r[0]] + b;
          KeepsOldPrepend(a, b, r[0], ids, env);
        } else {
          var k := FindIndex(Ids(b), RuleId(last));
          assert r == b[k := r[k]];
          KeepsOldReplace(a, b, k, r[k], ids, env);
        }
      }
    }
  }

  /** The detector keeps each id at most once: if the list held at most one
      alert with id `x`, so does the result, because each step looks for the
      rule id in the list built so far before adding one. */
  lemma {:induction false} DetectKeepsIdsUnique(a: seq<Alert>, ids: seq<string>, env: Readings, x: string)
    requires multiset(Ids(a))[x] <= 1
    ensures multiset(Ids(Detect(a, ids, env)))[x] <= 1
    decreases |ids|
  {
    if ids != [] {
      var front, last := ids[..|ids| - 1], ids[|ids| - 1];
      DetectKeepsIdsUnique(a, front, env, x);
      DetectOneIds(Detect(a, front, env), last, env);
    }
  }

  /** After a tick every stagnant active machine's first rule alert is
      settled. */
  ghost predicate RuleSettled(s: seq<Alert>, machineId: string, env: Readings) {
    RuleId(machineId) in Ids(s) && Settled(s[FindIndex(Ids(s), RuleId(machineId))], machineId, env)
  }

  lemma {:induction false} DetectSettles(a: seq<Alert>, ids: seq<string>, env: Readings)
    ensures forall m :: m in ids && StagnantAt(m, env) ==> RuleSettled(Detect(a, ids, env), m, env)
    decreases |ids|
  {
    if ids != [] {
      var front, last := ids[..|ids| - 1], ids[|ids| - 1];
      DetectSettles(a, front, env);
      var b := Detect(a, front, env);
      var r := DetectOne(b, last, env);
      assert Detect(a, ids, env) == r;
      DetectOneIds(b, last, env);
      forall m | m in ids && StagnantAt(m, env) ensures RuleSettled(r, m, env) {
        if m == last {
          if RuleId(last) !in Ids(b) {
            assert Ids(r)[0] == RuleId(last);
          }
        } else {
          assert m in front;
          if RuleId(m) == RuleId(last) {
            RuleIdInjective(m, last);
          }
          var km := FindIndex(Ids(b), RuleId(m));
          if StagnantAt(last, env) && RuleId(last) !in Ids(b) {
            FindIndexCons(RuleId(last), Ids(b), RuleId(m));
            assert r[km + 1] == b[km];
          }
        }
      }
    }
  }

  /** A list in which every stagnant active machine's rule alert is already
      settled is left unchanged by a tick. */
  lemma {:induction false} DetectFixpoint(b: seq<Alert>, ids: seq<string>, env: Readings)
    requires forall m :: m in ids && StagnantAt(m, env) ==> RuleSettled(b, m, env)
    ensures Detect(b, ids, env) == b
    decreases |ids|
  {
    if ids != [] {
      var front, last := ids[..|ids| - 1], ids[|ids| - 1];
      assert forall m :: m in front ==> m in ids;
      DetectFixpoint(b, front, env);
      var r := DetectOne(b, last, env);
      if StagnantAt(last, env) {
        assert RuleSettled(b, last, env);
        assert r == b;
      }
    }
  }

  /** A second tick at the same time, over the same counters, changes
      nothing. */
  lemma DetectIdempotent(a: seq<Alert>, ids: seq<string>, env: Readings)
    ensures Detect(Detect(a, ids, env), ids, env) == Detect(a, ids, env)
  {
    DetectSettles(a, ids, env);
    DetectFixpoint(Detect(a, ids, env), ids, env);
  }

  // ----- The counter simulator -----

  /** `incrementsByMachine[id] ?? 0`. */
  function Increment(increments: map<string, int>, machineId: string): int {
    Lookup(increments, machineId, 0)
  }

  /** The machine's counter moves on this tick. */
  predicate Moves(machineId: string, ids: seq<string>, increments: map<string, int>) {
    machineId in ids && Increment(increments, machineId) > 0
  }

  /** The counters after a simulator tick: each active machine with a
      positive increment gets it added, in id order. */
  function Advance(counters: map<string, nat>, ids: seq<string>, increments: map<string, int>): map<string, nat>
    decreases |ids|
  {
    if ids == [] then counters
    else
      var prev := Advance(counters, ids[..|ids| - 1], increments);
      var id := ids[|ids| - 1];
      if Increment(increments, id) <= 0 then prev
      else prev[id := Lookup(prev, id, 0) + Increment(increments, id)]
  }

  /** The last-increase times after a simulator tick: exactly the machines
      whose counter moved are stamped with `now`. */
  function Stamp(lastAt: map<string, int>, ids: seq<string>, increments: map<string, int>, now: int): map<string, int>
    decreases |ids|
  {
    if ids == [] then lastAt
    else
      var prev := Stamp(lastAt, ids[..|ids| - 1], increments, now);
      var id := ids[|ids| - 1];
      if Increment(increments, id) <= 0 then prev else prev[id := now]
  }

  /** Only machines that move change; a counter never decreases and a
      moving one strictly increases, by exactly its increment when the
      active ids are distinct. */
  lemma {:induction false} AdvanceSpec(counters: map<string, nat>, ids: seq<string>, increments: map<string, int>)
    ensures var r := Advance(counters, ids, increments);
      && (forall k :: !Moves(k, ids, increments) ==>
            (k in r <==> k in counters) && (k in counters ==> r[k] == counters[k]))
      && (forall k :: Moves(k, ids, increments) ==> k in r && r[k] > Lookup(counters, k, 0))
      && (forall k :: k in counters ==> k in r && r[k] >= counters[k])
      && (Distinct(ids) ==> forall k :: Moves(k, ids, increments) ==>
            r[k] == Lookup(counters, k, 0) + Increment(increments, k))
    decreases |ids|
  {
    if ids != [] {
      var front, last := ids[..|ids| - 1], ids[|ids| - 1];
      AdvanceSpec(counters, front, increments);
      assert forall k :: k in ids <==> k in front || k == last;
      if Distinct(ids) {
        assert Distinct(front);
        assert last !in front;
      }
    }
  }

  /** Exactly the machines whose counter moves get `now` as their last
      increase time; every other entry is unchanged. */
  lemma {:induction false} StampSpec(lastAt: map<string, int>, ids: seq<string>, increments: map<string, int>, now: int)
    ensures var r := Stamp(lastAt, ids, increments, now);
      && (forall k :: Moves(k, ids, increments) ==> k in r && r[k] == now)
      && (forall k :: !Moves(k, ids, increments) ==>
            (k in r <==> k in lastAt) && (k in lastAt ==> r[k] == lastAt[k]))
    decreases |ids|
  {
    if ids != [] {
      var front, last := ids[..|ids| - 1], ids[|ids| - 1];
      StampSpec(lastAt, front, increments, now);
      assert forall k :: k in ids <==> k in front || k == last;
    }
  }

  /** A tick in which no active machine draws a positive increment leaves
      both maps as they were. */
  lemma ZeroTickIsIdentity(counters: map<string, nat>, lastAt: map<string, int>, ids: seq<string>,
                           increments: map<string, int>, now: int)
    requires forall id :: id in ids ==> Increment(increments, id) <= 0
    ensures Advance(counters, ids, increments) == counters
    ensures Stamp(lastAt, ids, increments, now) == lastAt
  {
    AdvanceSpec(counters, ids, increments);
    StampSpec(lastAt, ids, increments, now);
  }

  // ----- The production monitor card -----

  /** The card's "Sin avance" badge as written: the floored minutes against
      the raw threshold, without the `Math.max(1, ...)` the detector
      applies. */
  predicate OverThresholdAsWritten(stagnantMs: int, limit: Limit) {
    limit.Minutes? && StagnantMinutes(stagnantMs) as real >= limit.m
  }

  /** With `?idleMin=0.4` the threshold rounds to 0: the card reports every
      active machine as stalled at 0 minutes while the detector waits a
      full minute. */
  lemma OverThresholdAsWrittenDisagrees()
    ensures InitialThreshold(Num(0.4)) == 0
    ensures OverThresholdAsWritten(0, Minutes(0.0)) && !IsStagnant(0, Minutes(0.0))
  {
  }

  /** The badge with the detector's clamp applied. */
  predicate OverThreshold(stagnantMs: int, limit: Limit) {
    limit.Minutes? && StagnantMinutes(stagnantMs) as real >= EffectiveMinutes(limit.m)
  }

  /** A fractional live threshold still separates them: at 1.5 minutes the
      detector fires after 90 seconds, while the clamped card compares whole
      minutes and waits until 120 seconds. */
  lemma OverThresholdFractionalLags()
    ensures IsStagnant(90000, Minutes(1.5)) && !OverThreshold(90000, Minutes(1.5))
    ensures OverThreshold(120000, Minutes(1.5))
  {
    assert StagnantMinutes(90000) == 1;
    assert StagnantMinutes(120000) == 2;
  }

  /** For every whole-minute threshold (all the ones the query can give, and
      every whole live edit) the badge and the detector agree. */
  lemma OverThresholdAgrees(stagnantMs: int, t: int)
    ensures OverThreshold(stagnantMs, Minutes(t as real)) <==> IsStagnant(stagnantMs, Minutes(t as real))
  {
    StagnantBoundary(stagnantMs, t);
    var n := StagnantMinutes(stagnantMs);
    var e := if t < 1 then 1 else t;
    assert EffectiveMinutes(t as real) == e as real;
    if stagnantMs >= e * 60000 {
      assert n * 60000 + 60000 > e * 60000;
    }
  }

  // ----- The sorted view -----

  /** `sortedAlerts` rank: actionable unread first. */
  function Priority(a: Alert): int {
    if a.actionRequired && !a.isRead then 1 else 0
  }

  function UnreadRank(a: Alert): int {
    if !a.isRead then 1 else 0
  }

  function Severity(t: AlertType): int {
    match t
    case Error => 4
    case Warning => 3
    case Info => 2
    case Success => 1
  }

  /** The comparator of `sortedAlerts`; `a` goes first when it is negative. */
  function Compare(a: Alert, b: Alert): int {
    if Priority(a) != Priority(b) then Priority(b) - Priority(a)
    else if UnreadRank(a) != UnreadRank(b) then UnreadRank(b) - UnreadRank(a)
    else if Severity(a.kind) != Severity(b.kind) then Severity(b.kind) - Severity(a.kind)
    else b.timestamp - a.timestamp
  }

  predicate ShownBefore(a: Alert, b: Alert) {
    Compare(a, b) <= 0
  }

  /** The comparator is consistent: a total preorder. */
  lemma ComparatorIsOrder()
    ensures Total(ShownBefore) && Transitive(ShownBefore)
  {
    forall a: Alert, b: Alert, c: Alert | ShownBefore(a, b) && ShownBefore(b, c)
      ensures ShownBefore(a, c)
    {
    }
  }

  /** What "`a` is shown before `b`" means: actionable unread alerts first,
      then unread ones, then by severity error, warning, info, success, then
      newest first. */
  lemma ShownBeforeMeans(a: Alert, b: Alert)
    requires ShownBefore(a, b)
    ensures IsActionable(b) ==> IsActionable(a)
    ensures IsActionable(a) == IsActionable(b) && !b.isRead ==> !a.isRead
    ensures IsActionable(a) == IsActionable(b) && a.isRead == b.isRead ==> Severity(a.kind) >= Severity(b.kind)
    ensures IsActionable(a) == IsActionable(b) && a.isRead == b.isRead && a.kind == b.kind ==>
      a.timestamp >= b.timestamp
  {
  }

  /** `sortedAlerts`: a stable sort of the list by the comparator. */
  function SortedView(s: seq<Alert>): (r: seq<Alert>)
    ensures multiset(r) == multiset(s)
    ensures forall i, j :: 0 <= i < j < |r| ==> ShownBefore(r[i], r[j])
  {
    ComparatorIsOrder();
    SortBySorted(s, ShownBefore);
    SortBy(s, ShownBefore)
  }

  // ----- Scope and filter -----

  datatype View = ProductionView | OperationsView

  predicate InScope(a: Alert, view: View) {
    if view == ProductionView then a.category == Production else a.category != Production
  }

  function ScopeOf(view: View): Alert -> bool {
    a => InScope(a, view)
  }

  /** `scopedAlerts`: the production view shows only production alerts, the
      operations view all others. */
  function Scoped(s: seq<Alert>, view: View): (r: seq<Alert>)
    ensures forall a :: a in r ==> InScope(a, view)
    ensures forall a :: InScope(a, view) ==> multiset(r)[a] == multiset(s)[a]
    ensures SubseqOf(r, s)
  {
    FilterIsSubseq(s, ScopeOf(view));
    FilterCounts(s, ScopeOf(view));
    Filter(s, ScopeOf(view))
  }

  /** The category filter is ignored in the production view. */
  function CategoryIn(view: View, cf: CategoryFilter): CategoryFilter {
    if view == ProductionView then AnyCategory else cf
  }

  /** `filteredAlerts` of the alert centre. */
  function Visible(s: seq<Alert>, view: View, tab: Tab, tf: TypeFilter, cf: CategoryFilter, query: string): (r: seq<Alert>)
    ensures forall a :: a in r ==> InScope(a, view) && Matches(a, tab, tf, CategoryIn(view, cf), query)
    ensures forall a :: InScope(a, view) && Matches(a, tab, tf, CategoryIn(view, cf), query) ==>
      multiset(r)[a] == multiset(s)[a]
    ensures SubseqOf(r, s)
  {
    var scoped := Scoped(s, view);
    var r := FilterAlerts(scoped, tab, tf, CategoryIn(view, cf), query);
    SubseqTrans(r, scoped, s);
    r
  }

  predicate IsActive(m: Machine) {
    m.status == Active
  }

  /** The machines whose status is active, in registry order: one id per
      active machine, in the order of the registry. */
  function ActiveMachineIds(machines: seq<Machine>): (r: seq<string>)
    ensures |r| == |Filter(machines, IsActive)| <= |machines|
    ensures forall i :: 0 <= i < |r| ==> r[i] == Filter(machines, IsActive)[i].id
  {
    var active := Filter(machines, IsActive);
    seq(|active|, i requires 0 <= i < |active| => active[i].id)
  }

  /** The looped ids are exactly the ids of the active machines. */
  lemma ActiveMachineIdsMembers(machines: seq<Machine>)
    ensures forall m :: m in machines && IsActive(m) ==> m.id in ActiveMachineIds(machines)
    ensures forall id :: id in ActiveMachineIds(machines) ==> exists m :: m in machines && IsActive(m) && m.id == id
  {
    var active := Filter(machines, IsActive);
    var r := ActiveMachineIds(machines);
    FilterCounts(machines, IsActive);
    forall m | m in machines && IsActive(m) ensures m.id in r {
      assert multiset(active)[m] > 0;
      var i :| 0 <= i < |active| && active[i] == m;
      assert r[i] == m.id;
    }
    forall id | id in r ensures exists m :: m in machines && IsActive(m) && m.id == id {
      var i :| 0 <= i < |r| && r[i] == id;
      assert active[i] in active;
    }
  }

  function MachineIds(machines: seq<Machine>): set<string> {
    set m | m in machines :: m.id
  }

  // ----- The alert centre's state -----

  class AlertCentre {
    const activeMachineIds: seq<string>
    var alerts: seq<Alert>
    var machineCounters: map<string, nat>
    var lastIncreaseAtByMachine: map<string, int>
    var idleThreshold: Limit

    /** Opening the page at `now` with the registry, the seed alerts and the
        `idleMin` query value: every machine's counter is 0 and its last
        increase is `now`. */
    constructor (machines: seq<Machine>, seed: seq<Alert>, now: int, idleMin: JsNumber)
      ensures activeMachineIds == ActiveMachineIds(machines)
      ensures alerts == seed
      ensures machineCounters == map id | id in MachineIds(machines) :: 0
      ensures lastIncreaseAtByMachine == map id | id in MachineIds(machines) :: now
      ensures idleThreshold == Minutes(InitialThreshold(idleMin) as real)
    {
      activeMachineIds := ActiveMachineIds(machines);
      alerts := seed;
      machineCounters := map id | id in MachineIds(machines) :: 0;
      lastIncreaseAtByMachine := map id | id in MachineIds(machines) :: now;
      idleThreshold := Minutes(InitialThreshold(idleMin) as real);
    }

    /** What the detector reads at time `now`. */
    function ReadingsAt(now: int): Readings
      reads this
    {
      Readings(now, lastIncreaseAtByMachine, machineCounters, idleThreshold)
    }

    /** The simulator tick: add each active machine's positive increment to
        its counter and stamp its last increase with `now`. */
    method SimulatorTick(now: int, incrementsByMachine: map<string, int>)
      modifies this`machineCounters, this`lastIncreaseAtByMachine
      ensures machineCounters == Advance(old(machineCounters), activeMachineIds, incrementsByMachine)
      ensures lastIncreaseAtByMachine == Stamp(old(lastIncreaseAtByMachine), activeMachineIds, incrementsByMachine, now)
    {
      var ids := activeMachineIds;
      var counters := machineCounters;
      var i := 0;
      while i < |ids|
        invariant 0 <= i <= |ids|
        invariant counters == Advance(old(machineCounters), ids[..i], incrementsByMachine)
      {
        assert ids[..i + 1][..i] == ids[..i];
        var increment := Lookup(incrementsByMachine, ids[i], 0);
        if increment > 0 {
          counters := counters[ids[i] := Lookup(counters, ids[i], 0) + increment];
        }
        i := i + 1;
      }
      assert ids[..|ids|] == ids;
      machineCounters := counters;

      var stamps := lastIncreaseAtByMachine;
      i := 0;
      while i < |ids|
        invariant 0 <= i <= |ids|
        invariant stamps == Stamp(old(lastIncreaseAtByMachine), ids[..i], incrementsByMachine, now)
      {
        assert ids[..i + 1][..i] == ids[..i];
        var increment := Lookup(incrementsByMachine, ids[i], 0);
        if increment > 0 {
          stamps := stamps[ids[i] := now];
        }
        i := i + 1;
      }
      lastIncreaseAtByMachine := stamps;
    }

    /** The detector tick at time `now`. */
    method DetectorTick(now: int)
      modifies this`alerts
      ensures alerts == Detect(old(alerts), activeMachineIds, ReadingsAt(now))
    {
      var ids := activeMachineIds;
      var env := ReadingsAt(now);
      var next := alerts;
      var i := 0;
      while i < |ids|
        invariant 0 <= i <= |ids|
        invariant next == Detect(old(alerts), ids[..i], env)
      {
        DetectStep(old(alerts), ids, i, env);
        next := DetectorStep(next, ids[i], env);
        i := i + 1;
      }
      assert ids[..|ids|] == ids;
      alerts := next;
    }

    /** A live edit of the threshold input. */
    method SetIdleThreshold(input: JsNumber)
      modifies this`idleThreshold
      ensures idleThreshold == LiveThreshold(input)
    {
      idleThreshold := LiveThreshold(input);
    }

    method MarkAsRead(id: string)
      modifies this`alerts
      ensures alerts == Alerts.MarkAsRead(old(alerts), id)
    {
      alerts := Alerts.MarkAsRead(alerts, id);
    }

    method MarkAllAsRead()
      modifies this`alerts
      ensures alerts == Alerts.MarkAllAsRead(old(alerts))
    {
      alerts := Alerts.MarkAllAsRead(alerts);
    }

    method Dismiss(id: string)
      modifies this`alerts
      ensures alerts == Alerts.Dismiss(old(alerts), id)
    {
      alerts := Alerts.Dismiss(alerts, id);
    }

    method ClearAll()
      modifies this`alerts
      ensures alerts == ClearRead(old(alerts))
    {
      alerts := ClearRead(alerts);
    }

    method Resolve(id: string)
      modifies this`alerts
      ensures alerts == Alerts.Resolve(old(alerts), id)
    {
      alerts := Alerts.Resolve(alerts, id);
    }
  }
}
