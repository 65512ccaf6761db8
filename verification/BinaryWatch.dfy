/**
  The executable watch (binary_watch.rs) against its history: what one tick concludes is a property of
  the sightings before it, not of the two fields the watch carries.
*/
module BinaryWatch {
  import opened Basics

  type Fingerprint = (nat, nat)
  const MISSING_TICKS_UNTIL_GONE: nat := 3

  datatype Sighting = Seen(mark: Fingerprint) | Absent | Unknown
  datatype Tick = Watch | Restart | Uninstalled

  /** A tick saw something, or a failed restart disarmed the watch. */
  datatype Item = Saw(now: Sighting) | Retried

  datatype State = State(pending: Option<Fingerprint>, missing: nat)

  function Next(s: State, baseline: Fingerprint, item: Item): State {
    match item
    case Retried => s.(pending := None)
    case Saw(Unknown) => s.(missing := 0)
    case Saw(Absent) => State(None, s.missing + 1)
    case Saw(Seen(now)) => State(if now == baseline then None else Some(now), 0)
  }

  function Verdict(s: State, baseline: Fingerprint, condemn: bool, now: Sighting): Tick {
    match now
    case Unknown => Watch
    case Absent => if condemn && s.missing + 1 >= MISSING_TICKS_UNTIL_GONE then Uninstalled else Watch
    case Seen(mark) => if mark != baseline && s.pending == Some(mark) then Restart else Watch
  }

  function After(baseline: Fingerprint, h: seq<Item>): State
    decreases |h|
  {
    if h == [] then State(None, 0) else Next(After(baseline, h[..|h| - 1]), baseline, h[|h| - 1])
  }

  // --- What the design promises, over histories -----------------------------------------------

  /** The newest item that is not an unanswered stat is a sighting of `mark`. */
  ghost predicate LastSeen(h: seq<Item>, mark: Fingerprint) {
    exists i :: 0 <= i < |h| && h[i] == Saw(Seen(mark)) && forall j :: i < j < |h| ==> h[j] == Saw(Unknown)
  }

  /** The sightings of a history: a retry is not one. */
  function Sightings(h: seq<Item>): seq<Sighting>
    decreases |h|
  {
    if h == [] then []
    else Sightings(h[..|h| - 1]) + if h[|h| - 1].Saw? then [h[|h| - 1].now] else []
  }

  /** The last `n` sightings all found nothing. */
  ghost predicate AbsentFor(s: seq<Sighting>, n: nat) {
    n <= |s| && forall i :: |s| - n <= i < |s| ==> s[i].Absent?
  }

  lemma {:induction false} PendingIsLastSeen(baseline: Fingerprint, h: seq<Item>, mark: Fingerprint)
    requires mark != baseline
    ensures After(baseline, h).pending == Some(mark) <==> LastSeen(h, mark)
    decreases |h|
  {
    if h != [] {
      var init, last := h[..|h| - 1], h[|h| - 1];
      PendingIsLastSeen(baseline, init, mark);
      if last == Saw(Unknown) {
        if LastSeen(init, mark) {
          var i :| 0 <= i < |init| && init[i] == Saw(Seen(mark)) && forall j :: i < j < |init| ==> init[j] == Saw(Unknown);
          assert h[i] == Saw(Seen(mark)) && forall j :: i < j < |h| ==> h[j] == Saw(Unknown);
        }
        if LastSeen(h, mark) {
          var i :| 0 <= i < |h| && h[i] == Saw(Seen(mark)) && forall j :: i < j < |h| ==> h[j] == Saw(Unknown);
          assert init[i] == Saw(Seen(mark)) && forall j :: i < j < |init| ==> init[j] == h[j];
        }
      } else {
        assert LastSeen(h, mark) <==> h[|h| - 1] == Saw(Seen(mark));
      }
    }
  }

  lemma {:induction false} MissingIsAbsentRun(baseline: Fingerprint, h: seq<Item>, n: nat)
    ensures n <= After(baseline, h).missing <==> AbsentFor(Sightings(h), n)
    decreases |h|
  {
    if h != [] {
      var init, last := h[..|h| - 1], h[|h| - 1];
      MissingIsAbsentRun(baseline, init, n);
      assert last.Retried? ==> Sightings(h) == Sightings(init);
      if n > 0 && last.Saw? {
        MissingIsAbsentRun(baseline, init, n - 1);
        var s, s' := Sightings(init), Sightings(h);
        assert s' == s + [last.now];
        assert forall i :: 0 <= i < |s| ==> s'[i] == s[i];
        assert AbsentFor(s', n) ==> s'[|s'| - 1].Absent?;
        assert AbsentFor(s', n) ==> AbsentFor(s, n - 1);
        assert last.now.Absent? && AbsentFor(s, n - 1) ==> AbsentFor(s', n);
      }
    }
  }

  /** `Restart` exactly when a changed fingerprint settled; `Uninstalled` exactly after three absences in a row. */
  lemma VerdictRefinesHistory(baseline: Fingerprint, condemn: bool, h: seq<Item>, now: Sighting)
    ensures var verdict := Verdict(After(baseline, h), baseline, condemn, now);
            && (verdict.Restart? <==> now.Seen? && now.mark != baseline && LastSeen(h, now.mark))
            && (verdict.Uninstalled? <==>
                condemn && AbsentFor(Sightings(h + [Saw(now)]), MISSING_TICKS_UNTIL_GONE))
  {
    if now.Seen? && now.mark != baseline {
      PendingIsLastSeen(baseline, h, now.mark);
    }
    assert (h + [Saw(now)])[..|h|] == h;
    MissingIsAbsentRun(baseline, h + [Saw(now)], MISSING_TICKS_UNTIL_GONE);
    if now.Seen? || now.Unknown? {
      var s := Sightings(h + [Saw(now)]);
      assert s[|s| - 1] == now;
    }
  }

  class Watcher {
    var pending: Option<Fingerprint>
    var missing: nat
    const condemnOnAbsence: bool

    ghost function Model(): State reads this { State(pending, missing) }

    constructor (condemnOnAbsence: bool)
      ensures Model() == State(None, 0) && this.condemnOnAbsence == condemnOnAbsence
    {
      pending, missing := None, 0;
      this.condemnOnAbsence := condemnOnAbsence;
    }

    method OnTick(baseline: Fingerprint, now: Sighting) returns (verdict: Tick)
      modifies this
      ensures Model() == Next(old(Model()), baseline, Saw(now))
      ensures verdict == Verdict(old(Model()), baseline, condemnOnAbsence, now)
    {
      match now {
        case Unknown =>
          missing := 0;
          return Watch;
        case Absent =>
          pending := None;
          missing := missing + 1;
          return if condemnOnAbsence && missing >= MISSING_TICKS_UNTIL_GONE then Uninstalled else Watch;
        case Seen(mark) =>
          missing := 0;
          if mark == baseline {
            pending := None;
            return Watch;
          }
          var settled := pending == Some(mark);
          pending := Some(mark);
          return if settled then Restart else Watch;
      }
    }
  }
}
