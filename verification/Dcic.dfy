/** The soft cache-isolation controller: one quota step per dwell, with hysteresis. */
module Dcic {
  import opened Ewma
  import opened Options

  const NONE := "none"
  const SHRINK_BE := "shrink_be"
  const RECLAIM_BE := "reclaim_be"
  const ADVISE_SHRINK_BE := "advise_shrink_be"
  const OBSERVE_WOULD_SHRINK_BE := "observe_would_shrink_be"
  const ADVISE_RECLAIM_BE := "advise_reclaim_be"
  const OBSERVE_WOULD_RECLAIM_BE := "observe_would_reclaim_be"
  const REASON_NOISE := "noise_trip"
  const REASON_SLACK := "slack"
  const REASON_DWELL := "dwell_or_noop"

  /** Any string is accepted as a mode; only three of them mean something. */
  datatype Mode = Observe | Advise | Enforce | Other(name: string)

  /** Times and durations are in nanoseconds. */
  datatype Config = Config(hardDrop: real, alpha: real, minDwell: int, slackEpochs: int, floor: int, ceil: int, step: int) {
    /** What construction leaves: no field is zero or negative. */
    ghost predicate Normal() {
      hardDrop > 0.0 && 0.0 < alpha <= 1.0 && minDwell > 0 && slackEpochs > 0 && floor > 0 && ceil > 0 && step > 0
    }
  }

  datatype Action = NoAction | Shrink | Reclaim

  /** `lastAction` is None for the zero time; `lastName` is the name of the last step taken. */
  datatype State = State(mode: Mode, avg: Avg, slack: int, quota: int, lastAction: Option<int>, lastName: string)

  /** A decision: the step the controller wants, the name and reason it gives, the quota it
      reports and whether the sample was a fault. */
  datatype Decision = Decision(action: Action, name: string, reason: string, quota: int, fault: bool)

  /** What is kept for the metrics endpoint. */
  datatype Metrics = Metrics(noise: real, avg: real, pressure: real, fault: bool, quota: int, lastName: string,
                             mode: Mode, slack: int, samples: int)

  /** The name of a step. */
  function Plain(a: Action): string {
    match a
    case NoAction => NONE
    case Shrink => SHRINK_BE
    case Reclaim => RECLAIM_BE
  }

  /** The name a decision gives: advising and observing say so. */
  function Named(m: Mode, a: Action): string {
    match (a, m)
    case (Shrink, Advise) => ADVISE_SHRINK_BE
    case (Shrink, Observe) => OBSERVE_WOULD_SHRINK_BE
    case (Reclaim, Advise) => ADVISE_RECLAIM_BE
    case (Reclaim, Observe) => OBSERVE_WOULD_RECLAIM_BE
    case _ => Plain(a)
  }

  /** Which default replaces which setting; a smoothing factor above one becomes one. */
  function Normalised(cfg: Config): (c: Config)
    ensures c.Normal()
    ensures cfg.Normal() ==> c == cfg
  {
    Config(if cfg.hardDrop > 0.0 then cfg.hardDrop else 0.05,
           if cfg.alpha > 1.0 then 1.0 else if cfg.alpha > 0.0 then cfg.alpha else 0.3,
           if cfg.minDwell > 0 then cfg.minDwell else 3_000_000_000,
           if cfg.slackEpochs > 0 then cfg.slackEpochs else 5,
           if cfg.floor > 0 then cfg.floor else 10,
           if cfg.ceil > 0 then cfg.ceil else 100,
           if cfg.step > 0 then cfg.step else 10)
  }

  predicate Acts(m: Mode) { m == Enforce || m == Advise }

  predicate DwellOk(cfg: Config, s: State, now: int) {
    s.lastAction.None? || now - s.lastAction.value >= cfg.minDwell
  }

  function Max(a: int, b: int): int { if a < b then b else a }
  function Min(a: int, b: int): int { if a < b then a else b }

  function Fault(cfg: Config, s: State, noise: real): bool {
    Fold(cfg.alpha, s.avg, noise).value >= cfg.hardDrop || noise >= cfg.hardDrop
  }

  /** What the controller would like to do with this sample. */
  function Wants(cfg: Config, s: State, noise: real, now: int): Action {
    if Fault(cfg, s, noise) then
      if DwellOk(cfg, s, now) && Max(s.quota - cfg.step, cfg.floor) < s.quota then Shrink else NoAction
    else if s.slack + 1 >= cfg.slackEpochs && DwellOk(cfg, s, now) && s.quota < cfg.ceil then Reclaim
    else NoAction
  }

  function Target(cfg: Config, quota: int, a: Action): int {
    match a
    case NoAction => quota
    case Shrink => Max(quota - cfg.step, cfg.floor)
    case Reclaim => Min(quota + cfg.step, cfg.ceil)
  }

  function Reason(cfg: Config, s: State, noise: real, now: int): string {
    match Wants(cfg, s, noise, now)
    case Shrink => REASON_NOISE
    case Reclaim => REASON_SLACK
    case NoAction => if Fault(cfg, s, noise) && !DwellOk(cfg, s, now) then REASON_DWELL else ""
  }

  function Observed(cfg: Config, s: State, noise: real, now: int): (State, Decision) {
    var fault, want := Fault(cfg, s, noise), Wants(cfg, s, noise, now);
    var counted := if fault then s.slack else s.slack + 1;
    var acted := want != NoAction && Acts(s.mode);
    var s' := State(s.mode, Fold(cfg.alpha, s.avg, noise),
                    if want == Shrink || acted then 0 else counted,
                    if acted then Target(cfg, s.quota, want) else s.quota,
                    if acted then Some(now) else s.lastAction,
                    if acted then Plain(want) else s.lastName);
    (s', Decision(want, Named(s.mode, want), Reason(cfg, s, noise, now),
                  if s.mode == Observe then s.quota else Target(cfg, s.quota, want), fault))
  }

  /** The defaulting part of construction. */
  method WithDefaults(cfg: Config) returns (c: Config)
    ensures c == Normalised(cfg)
  {
    var alpha := ClampAlpha(if cfg.alpha <= 0.0 then 0.3 else cfg.alpha);
    c := Config(if cfg.hardDrop <= 0.0 then 0.05 else cfg.hardDrop, alpha,
                if cfg.minDwell <= 0 then 3_000_000_000 else cfg.minDwell,
                if cfg.slackEpochs <= 0 then 5 else cfg.slackEpochs,
                if cfg.floor <= 0 then 10 else cfg.floor,
                if cfg.ceil <= 0 then 100 else cfg.ceil,
                if cfg.step <= 0 then 10 else cfg.step);
  }

  /** The controller as an object. */
  class Controller {
    const cfg: Config
    const ewma: Smoother
    var mode: Mode
    var samples: int
    var slack: int
    var beQuota: int
    var lastAction: Option<int>
    var lastName: string
    var snap: Metrics

    /** The metrics always show the quota, mode, counts and last step in force. */
    ghost predicate Valid()
      reads this, ewma
    {
      && cfg.alpha == ewma.alpha
      && snap.quota == beQuota && snap.mode == mode && snap.slack == slack && snap.samples == samples && snap.lastName == lastName
    }

    ghost function View(): State
      reads this, ewma
    {
      State(mode, ewma.View(), slack, beQuota, lastAction, lastName)
    }

    /** Zero and negative settings are replaced by the defaults, an empty mode by observing;
        the initial quota is not clamped. */
    constructor (cfg: Config, quota: int, mode: Mode)
      ensures Valid() && fresh(ewma) && samples == 0
      ensures this.cfg == Normalised(cfg)
      ensures View() == State(if mode == Other("") then Mode.Observe else mode, Avg(0.0, false), 0,
                              if quota > 0 then quota else 100, None, "")
    {
      var c := WithDefaults(cfg);
      var e := new Smoother(c.alpha);
      var q := if quota <= 0 then 100 else quota;
      var m := if mode == Other("") then Mode.Observe else mode;
      this.cfg, ewma := c, e;
      this.mode, beQuota := m, q;
      samples, slack, lastAction, lastName := 0, 0, None, "";
      snap := Metrics(0.0, 0.0, 0.0, false, q, "", m, 0, 0);
    }

    method SetMode(mode: Mode)
      requires Valid()
      modifies this`mode, this`snap
      ensures Valid() && View() == old(View()).(mode := mode) && snap == old(snap).(mode := mode)
    {
      this.mode := mode;
      snap := snap.(mode := mode);
    }

    method Observe(noise: real, pressure: real, now: int) returns (dec: Decision)
      requires Valid()
      modifies this, ewma
      ensures Valid() && samples == old(samples) + 1
      ensures (View(), dec) == Observed(cfg, old(View()), noise, now)
      ensures snap.noise == noise && snap.avg == ewma.value && snap.pressure == pressure && snap.fault == dec.fault
    {
      hide Fold, Named, Plain;
      samples := samples + 1;
      var avg := ewma.Update(noise);
      var fault := avg >= cfg.hardDrop || noise >= cfg.hardDrop;
      var dwellOk := lastAction.None? || now - lastAction.value >= cfg.minDwell;
      NamedNone(mode);
      if fault && dwellOk {
        dec := Trip(now);
      } else if !fault {
        dec := Relax(now, dwellOk);
      } else {
        dec := Decision(NoAction, NONE, REASON_DWELL, beQuota, true);
      }
      snap := Metrics(noise, avg, pressure, fault, beQuota, lastName, mode, slack, samples);
    }

    /** Carries out a step, or only reports it, as the mode says. */
    method Take(a: Action, next: int, now: int, reason: string, fault: bool) returns (dec: Decision)
      requires a != NoAction
      modifies this`beQuota, this`lastAction, this`lastName
      ensures dec == Decision(a, Named(mode, a), reason, if mode == Mode.Observe then old(beQuota) else next, fault)
      ensures if Acts(mode) then beQuota == next && lastAction == Some(now) && lastName == Plain(a)
              else beQuota == old(beQuota) && lastAction == old(lastAction) && lastName == old(lastName)
    {
      dec := Decision(a, Plain(a), reason, next, fault);
      if mode == Enforce || mode == Advise {
        beQuota := next;
        lastAction := Some(now);
        lastName := dec.name;
      }
      if mode == Advise {
        dec := dec.(name := if a == Shrink then ADVISE_SHRINK_BE else ADVISE_RECLAIM_BE);
      }
      if mode == Mode.Observe {
        dec := dec.(name := if a == Shrink then OBSERVE_WOULD_SHRINK_BE else OBSERVE_WOULD_RECLAIM_BE, quota := beQuota);
      }
    }

    /** A fault outside the dwell. */
    method Trip(now: int) returns (dec: Decision)
      modifies this`slack, this`beQuota, this`lastAction, this`lastName
      ensures var want := if Max(old(beQuota) - cfg.step, cfg.floor) < old(beQuota) then Shrink else NoAction;
              Taken(old(State(mode, Avg(0.0, false), slack, beQuota, lastAction, lastName)), want, now,
                    if want == Shrink then REASON_NOISE else "", true, if want == Shrink then 0 else old(slack), dec)
    {
      hide Named, Plain;
      NamedNone(mode);
      dec := Decision(NoAction, NONE, "", beQuota, true);
      var next := beQuota - cfg.step;
      if next < cfg.floor {
        next := cfg.floor;
      }
      if next < beQuota {
        slack := 0;
        dec := Take(Shrink, next, now, REASON_NOISE, true);
      }
    }

    /** A sample that is no fault. */
    method Relax(now: int, dwellOk: bool) returns (dec: Decision)
      modifies this`slack, this`beQuota, this`lastAction, this`lastName
      ensures var want := if old(slack) + 1 >= cfg.slackEpochs && dwellOk && old(beQuota) < cfg.ceil then Reclaim else NoAction;
              Taken(old(State(mode, Avg(0.0, false), slack, beQuota, lastAction, lastName)), want, now,
                    if want == Reclaim then REASON_SLACK else "", false,
                    if want == Reclaim && Acts(mode) then 0 else old(slack) + 1, dec)
    {
      hide Named, Plain;
      NamedNone(mode);
      dec := Decision(NoAction, NONE, "", beQuota, false);
      slack := slack + 1;
      if slack >= cfg.slackEpochs && dwellOk && beQuota < cfg.ceil {
        var next := beQuota + cfg.step;
        if next > cfg.ceil {
          next := cfg.ceil;
        }
        dec := Take(Reclaim, next, now, REASON_SLACK, false);
        if Acts(mode) {
          slack := 0;
        }
      }
    }

    /** The fields and the decision after wanting `want` in state `s`. */
    ghost predicate Taken(s: State, want: Action, now: int, reason: string, fault: bool, slackAfter: int, dec: Decision)
      reads this
    {
      && slack == slackAfter
      && dec == Decision(want, Named(s.mode, want), reason, if s.mode == Mode.Observe then s.quota else Target(cfg, s.quota, want), fault)
      && (if want != NoAction && Acts(s.mode) then beQuota == Target(cfg, s.quota, want) && lastAction == Some(now) && lastName == Plain(want)
          else beQuota == s.quota && lastAction == s.lastAction && lastName == s.lastName)
    }
  }

  lemma NamedNone(m: Mode)
    ensures Named(m, NoAction) == Plain(NoAction) == NONE
  {}

  // --------------------------------------------------------------------- whole runs

  /** A sample, or a change of mode. */
  datatype Input = Sample(noise: real, now: int) | Switch(mode: Mode)

  function Next(cfg: Config, s: State, i: Input): State {
    match i
    case Sample(noise, now) => Observed(cfg, s, noise, now).0
    case Switch(mode) => s.(mode := mode)
  }

  function Run(cfg: Config, s: State, ins: seq<Input>): State {
    if ins == [] then s else Next(cfg, Run(cfg, s, ins[..|ins| - 1]), ins[|ins| - 1])
  }

  /** The quota never leaves the configured range, and from outside it never moves away. */
  lemma {:induction false} QuotaInRange(cfg: Config, s: State, ins: seq<Input>)
    requires cfg.Normal()
    ensures Min(s.quota, cfg.floor) <= Run(cfg, s, ins).quota <= Max(s.quota, cfg.ceil)
    ensures cfg.floor <= s.quota <= cfg.ceil ==> cfg.floor <= Run(cfg, s, ins).quota <= cfg.ceil
  {
    hide Fold;
    if ins != [] {
      QuotaInRange(cfg, s, ins[..|ins| - 1]);
    }
  }

  /** The number of inputs that changed the quota. */
  function Changes(cfg: Config, s: State, ins: seq<Input>): nat {
    if ins == [] then 0
    else
      var front := ins[..|ins| - 1];
      Changes(cfg, s, front) + (if Run(cfg, s, ins).quota != Run(cfg, s, front).quota then 1 else 0)
  }

  function Abs(x: int): int { if x < 0 then -x else x }

  /** A change of quota is one step at most, is stamped with its own time, and comes at least
      a dwell after the previous one. */
  lemma ChangeIsOneStep(cfg: Config, s: State, i: Input)
    requires cfg.Normal()
    ensures var s' := Next(cfg, s, i);
            if s'.quota == s.quota then s'.lastAction == s.lastAction
            else
              && i.Sample? && Acts(s.mode) && s'.lastAction == Some(i.now) && s'.slack == 0
              && 0 < Abs(s'.quota - s.quota) <= cfg.step
              && (s.lastAction.Some? ==> s.lastAction.value + cfg.minDwell <= i.now)
              && (s'.quota < s.quota <==> Fault(cfg, s, i.noise))
  {
    hide Fold;
  }

  ghost predicate Monotone(t0: int, ins: seq<Input>, t1: int) {
    && (forall i :: 0 <= i < |ins| && ins[i].Sample? ==> t0 <= ins[i].now <= t1)
    && (forall i, j :: 0 <= i < j < |ins| && ins[i].Sample? && ins[j].Sample? ==> ins[i].now <= ins[j].now)
  }

  lemma MulLe(a: int, b: int, c: int)
    requires a <= b && 0 <= c
    ensures a * c <= b * c
  {}

  function Times(n: int, d: int): int { n * d }

  lemma TimesNext(n: int, d: int)
    ensures Times(n + 1, d) == Times(n, d) + d && Times(0, d) == 0
  {}

  /** Spacing: after `n > 0` changes inside the run the last one is at least `n - 1` dwells
      after the start. */
  lemma {:induction false} Spacing(cfg: Config, s: State, ins: seq<Input>, t0: int, t1: int)
    requires cfg.Normal() && t0 <= t1 && Monotone(t0, ins, t1)
    ensures var s', n := Run(cfg, s, ins), Changes(cfg, s, ins);
            && Abs(s'.quota - s.quota) <= Times(n, cfg.step)
            && (if n == 0 then s'.lastAction == s.lastAction
                else s'.lastAction.Some? && t0 + Times(n - 1, cfg.minDwell) <= s'.lastAction.value <= t1)
  {
    hide Next, Times;
    TimesNext(0, cfg.step);
    TimesNext(0, cfg.minDwell);
    if ins != [] {
      var front := ins[..|ins| - 1];
      Spacing(cfg, s, front, t0, t1);
      ChangeIsOneStep(cfg, Run(cfg, s, front), ins[|ins| - 1]);
      var n: int := Changes(cfg, s, front);
      TimesNext(n, cfg.step);
      TimesNext(n - 1, cfg.minDwell);
    }
  }

  lemma DivLe(n: nat, x: nat, d: int)
    requires d > 0 && Times(n, d) <= x
    ensures n <= x / d
  {
    var q := x / d;
    assert x == q * d + x % d;
    assert x < (q + 1) * d;
    if n > q {
      MulLe(q + 1, n, d);
    }
  }

  /** Hysteresis: over any stretch of time the quota moves by at most one step, plus one for
      every full dwell in it. */
  lemma QuotaMovesSlowly(cfg: Config, s: State, ins: seq<Input>, t0: int, t1: int)
    requires cfg.Normal() && t0 <= t1 && Monotone(t0, ins, t1)
    ensures Abs(Run(cfg, s, ins).quota - s.quota) <= cfg.step * (1 + (t1 - t0) / cfg.minDwell)
  {
    hide Run, Changes;
    Spacing(cfg, s, ins, t0, t1);
    var n := Changes(cfg, s, ins);
    TimesNext(0, cfg.minDwell);
    DivLe(if n > 0 then n - 1 else 0, t1 - t0, cfg.minDwell);
    MulLe(n, 1 + (t1 - t0) / cfg.minDwell, cfg.step);
  }

  /** The noise samples of a run. */
  function Noises(ins: seq<Input>): seq<real> {
    if ins == [] then []
    else
      var front, i := Noises(ins[..|ins| - 1]), ins[|ins| - 1];
      if i.Sample? then front + [i.noise] else front
  }

  lemma {:induction false} RunAverages(cfg: Config, s: State, ins: seq<Input>)
    requires s.avg == Avg(0.0, false)
    ensures Run(cfg, s, ins).avg == FoldAll(cfg.alpha, Noises(ins))
  {
    hide Fold;
    if ins != [] {
      RunAverages(cfg, s, ins[..|ins| - 1]);
      if ins[|ins| - 1].Sample? {
        assert Noises(ins)[..|Noises(ins)| - 1] == Noises(ins[..|ins| - 1]);
      }
    }
  }

  /** What is a fault, over any run: a sample that is noisy by itself, or an average of all
      samples that is. */
  lemma FaultRule(cfg: Config, s: State, ins: seq<Input>, noise: real, now: int)
    requires s.avg == Avg(0.0, false)
    ensures Observed(cfg, Run(cfg, s, ins), noise, now).1.fault <==>
            noise >= cfg.hardDrop || FoldAll(cfg.alpha, Noises(ins) + [noise]).value >= cfg.hardDrop
  {
    hide Fold, Wants, Reason, Named, Target;
    RunAverages(cfg, s, ins);
    assert (Noises(ins) + [noise])[..|Noises(ins)|] == Noises(ins);
  }

  /** When the quota goes down and by how much: exactly on a fault, in a mode that acts, a dwell
      after the last change or before the first, and above the floor. */
  lemma ShrinksIff(cfg: Config, s: State, noise: real, now: int)
    requires cfg.Normal()
    ensures var (s', d) := Observed(cfg, s, noise, now);
            && (s'.quota < s.quota <==>
                && d.fault && (s.mode == Enforce || s.mode == Advise) && s.quota > cfg.floor
                && (s.lastAction.Some? ==> now - s.lastAction.value >= cfg.minDwell))
            && (s'.quota < s.quota ==> s'.quota == if s.quota - cfg.step >= cfg.floor then s.quota - cfg.step else cfg.floor)
  {
    hide Fold, Reason, Named;
  }

  /** When it goes up and by how much: exactly on a sample that is no fault and completes the
      configured number of quiet ones, in a mode that acts, outside the dwell, and below the
      ceiling. */
  lemma ReclaimsIff(cfg: Config, s: State, noise: real, now: int)
    requires cfg.Normal()
    ensures var (s', d) := Observed(cfg, s, noise, now);
            && (s'.quota > s.quota <==>
                && !d.fault && (s.mode == Enforce || s.mode == Advise) && s.quota < cfg.ceil && s.slack + 1 >= cfg.slackEpochs
                && (s.lastAction.Some? ==> now - s.lastAction.value >= cfg.minDwell))
            && (s'.quota > s.quota ==> s'.quota == if s.quota + cfg.step <= cfg.ceil then s.quota + cfg.step else cfg.ceil)
  {
    hide Fold, Reason, Named;
  }

  /** Non-fault samples since the quota last changed, or since the start. */
  function QuietSinceChange(cfg: Config, s: State, ins: seq<Input>): nat {
    if ins == [] then 0
    else
      var front, i := ins[..|ins| - 1], ins[|ins| - 1];
      var before := Run(cfg, s, front);
      if Next(cfg, before, i).quota != before.quota then 0
      else QuietSinceChange(cfg, s, front) + (if i.Sample? && !Fault(cfg, before, i.noise) then 1 else 0)
  }

  lemma {:induction false} SlackIsQuiet(cfg: Config, s: State, ins: seq<Input>)
    requires cfg.Normal() && s.slack == 0
    ensures 0 <= Run(cfg, s, ins).slack <= QuietSinceChange(cfg, s, ins)
  {
    hide Fold;
    if ins != [] {
      SlackIsQuiet(cfg, s, ins[..|ins| - 1]);
    }
  }

  /** Every reclaim has seen the configured number of non-fault samples, itself included,
      since the quota last changed. */
  lemma ReclaimAfterQuiet(cfg: Config, s: State, ins: seq<Input>, noise: real, now: int)
    requires cfg.Normal() && s.slack == 0
    requires Next(cfg, Run(cfg, s, ins), Sample(noise, now)).quota > Run(cfg, s, ins).quota
    ensures QuietSinceChange(cfg, s, ins) + 1 >= cfg.slackEpochs && !Fault(cfg, Run(cfg, s, ins), noise)
  {
    hide Fold;
    SlackIsQuiet(cfg, s, ins);
  }

  /** A fault resets the count exactly when it asks for a smaller quota. */
  lemma SlackSurvivesFault(cfg: Config, s: State, noise: real, now: int)
    requires cfg.Normal() && Fault(cfg, s, noise)
    ensures Observed(cfg, s, noise, now).0.slack != s.slack <==> Wants(cfg, s, noise, now) == Shrink && s.slack != 0
  {}

  /** Non-fault samples of a run, wherever faults fall between them. */
  function QuietSamples(cfg: Config, s: State, ins: seq<Input>): nat {
    if ins == [] then 0
    else
      var front, i := ins[..|ins| - 1], ins[|ins| - 1];
      QuietSamples(cfg, s, front) + (if i.Sample? && !Fault(cfg, Run(cfg, s, front), i.noise) then 1 else 0)
  }

  /** Inside a dwell every quiet sample counts towards the next reclaim and no fault takes one
      back, in whatever order and mode they come: the samples need not be consecutive. */
  lemma {:induction false} DwellCountsQuiet(cfg: Config, s: State, ins: seq<Input>)
    requires cfg.Normal() && s.lastAction.Some?
    requires forall i :: 0 <= i < |ins| && ins[i].Sample? ==> ins[i].now - s.lastAction.value < cfg.minDwell
    ensures var s' := Run(cfg, s, ins);
            s'.slack == s.slack + QuietSamples(cfg, s, ins) && s'.quota == s.quota && s'.lastAction == s.lastAction
  {
    hide Fold;
    if ins != [] {
      DwellCountsQuiet(cfg, s, ins[..|ins| - 1]);
    }
  }

  /** A quiet sample, a fault inside the dwell and another quiet sample: the second quiet
      sample reclaims although only one follows the fault. */
  lemma ReclaimAcrossFault()
    ensures var cfg := Config(0.5, 1.0, 10, 2, 10, 100, 10);
            var s := State(Enforce, Avg(0.0, false), 0, 50, Some(0), "");
            var s1 := Observed(cfg, s, 0.0, 1).0;
            var (s2, d2) := Observed(cfg, s1, 0.9, 2);
            var (s3, d3) := Observed(cfg, s2, 0.0, 10);
            && d2.fault && d2.action == NoAction && s1.slack == s2.slack == 1 && cfg.slackEpochs == 2
            && d3.action == Reclaim && s3.quota == 60
  {}

  /** The reported quota is the quota in force exactly when the mode is one of the three that
      mean something, or nothing was wanted. */
  lemma ReportedQuota(cfg: Config, s: State, noise: real, now: int)
    requires cfg.Normal()
    ensures var (s', d) := Observed(cfg, s, noise, now);
            d.quota == s'.quota <==> !s.mode.Other? || d.action == NoAction
  {
    hide Fold;
  }
}
