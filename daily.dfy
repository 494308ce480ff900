/**
 * The daily text report (`main` of the scraping script): for each of the
 * three days before today, oldest first, skip the day if its marker file
 * exists, otherwise filter the dashboard by that date, extract the target
 * lines, format the message, send it, and write the marker only after an
 * accepted send. One `try` wraps the whole loop, so an exception in any
 * stage ends the run and the later days are not visited.
 *
 * Days are day numbers; the calendar turning them into dates, the browser,
 * the backend's answers and the file system are given by a `World`.
 */
module DailyReport {
  import opened Base
  import opened Waha
  import opened Report
  import opened Dashboard
  import opened Dates

  /** What the dashboard shows after filtering for one day. */
  datatype Page =
    | Unfiltered             // `filtrar_por_data` returned False (timeout or any caught error)
    | Loaded(cards: seq<Card>)
    | BrowserFault           // reading the cards raised, which escapes to the outer `try`

  /** Everything outside the script that decides how a run goes. */
  datatype World = World(
    config: Config,
    calendar: int -> CalendarDate,  // the date of a day number
    page: int -> Page,              // the dashboard for a day
    reply: int -> Reply,            // the backend's answer to that day's `sendText`
    writable: int -> bool,          // whether writing that day's marker file succeeds
    parse: string -> Option<real>,  // `float`
    render: real -> string)         // `"{:.1f}".format`

  /** How the visit of one day ended. */
  datatype Outcome =
    | Skipped        // its marker existed
    | FilterFailed
    | NoData         // no target line on the page
    | NotFormatted   // the formatter returned None
    | SendFailed
    | Delivered      // sent and marked
    | Crashed        // an exception left the loop before anything was sent
    | WriteFailed    // sent, but writing the marker raised: delivered and unmarked

  datatype Visit = Visit(period: int, outcome: Outcome)

  /** The state a run leaves: the markers, the days visited, and whether the loop was abandoned. */
  datatype Pass = Pass(marked: set<int>, log: seq<Visit>, aborted: bool)

  /** Outcomes that leave the outer `try`. */
  predicate Fatal(o: Outcome)
  {
    o == Crashed || o == WriteFailed
  }

  /** Outcomes for which `enviar_texto_whatsapp` was called. */
  predicate Sends(o: Outcome)
  {
    o == SendFailed || o == Delivered || o == WriteFailed
  }

  /** `reversed(s)`. */
  function Reverse(s: seq<int>): (r: seq<int>)
    ensures |r| == |s| && forall k :: 0 <= k < |s| ==> r[k] == s[|s| - 1 - k]
  {
    if s == [] then [] else Reverse(s[1..]) + [s[0]]
  }

  /** `reversed([hoje - timedelta(days=i) for i in range(1, 4)])`. */
  function Candidates(today: int): (r: seq<int>)
    ensures |r| == 3 && forall k :: 0 <= k < 3 ==> r[k] == today - 3 + k
    ensures forall i, j :: 0 <= i < j < |r| ==> r[i] < r[j]
    ensures forall k :: 0 <= k < |r| ==> r[k] < today
  {
    Reverse([today - 1, today - 2, today - 3])
  }

  /** Everything after the marker check for a day whose marker is absent. */
  function Attempt(p: int, w: World): Outcome
  {
    match w.page(p)
    case Unfiltered => FilterFailed
    case BrowserFault => Crashed
    case Loaded(cards) =>
      var dados := ExtractRecords(cards);
      if dados == [] then NoData
      else
        match Format(dados, FilterText(w.calendar(p)), w.parse, w.render)
        case ValueError => Crashed
        case NoMessage => NotFormatted
        case Message(_) =>
          if !Accepted(w.config, w.reply(p)) then SendFailed
          else if w.writable(p) then Delivered
          else WriteFailed
  }

  /** How the stages end for each day, as `Attempt` decides them in world `w`. */
  function Stages(w: World): int -> Outcome
  {
    p => Attempt(p, w)
  }

  /**
   * The loop over the days, as a function of the markers present when it
   * starts and of how the stages end for each unmarked day.
   */
  function Run(ps: seq<int>, marked: set<int>, stages: int -> Outcome): Pass
  {
    if ps == [] then Pass(marked, [], false)
    else
      var p := ps[0];
      var o := if p in marked then Skipped else stages(p);
      if Fatal(o) then Pass(marked, [Visit(p, o)], true)
      else
        var rest := Run(ps[1..], if o == Delivered then marked + {p} else marked, stages);
        Pass(rest.marked, [Visit(p, o)] + rest.log, rest.aborted)
  }

  /** The script's configuration check: `all([USUARIO, SENHA, WAHA_ENDPOINT])`. */
  predicate LoginConfigured(c: Config)
  {
    Truthy(c.user) && Truthy(c.password) && Truthy(c.endpoint)
  }

  /**
   * The whole `main`: the exit status and the state it leaves. `browserUp`
   * says whether starting the browser and logging in succeeded; when it did
   * not, the raised exception is caught and no day is visited.
   */
  function DailyMain(w: World, today: int, probes: nat -> Probe, latency: nat -> nat, browserUp: bool,
                     marked: set<int>): (int, Pass)
  {
    if !LoginConfigured(w.config) then (1, Pass(marked, [], false))
    else if !AwaitReady(probes, latency, DefaultTimeout).ready then (1, Pass(marked, [], false))
    else if !browserUp then (0, Pass(marked, [], true))
    else (0, Run(Candidates(today), marked, Stages(w)))
  }

  /** The `enviado_<date>.txt` files of the output directory, one per delivered day. */
  class MarkerStore {
    var marked: set<int>

    constructor (initial: set<int>)
      ensures marked == initial
    {
      marked := initial;
    }

    /** `os.path.exists(marcador_path)`. */
    predicate Has(p: int)
      reads this
    {
      p in marked
    }

    /** Writes the marker of day `p`; `ok` says whether the write succeeds. */
    method Write(p: int, ok: bool) returns (written: bool)
      modifies this
      ensures written == ok
      ensures marked == if ok then old(marked) + {p} else old(marked)
    {
      written := ok;
      if ok {
        marked := marked + {p};
      }
    }
  }

  /** The stages of one unmarked day, as the loop body runs them. */
  method ProcessDay(store: MarkerStore, p: int, w: World) returns (o: Outcome)
    modifies store
    ensures o == Attempt(p, w)
    ensures store.marked == if o == Delivered then old(store.marked) + {p} else old(store.marked)
  {
    match w.page(p)
    case Unfiltered =>
      return FilterFailed;
    case BrowserFault =>
      return Crashed;
    case Loaded(cards) =>
      var dados := ExtractRows(cards);
      if dados == [] {
        return NoData;
      }
      var mensagem := FormatMessage(dados, FilterText(w.calendar(p)), w.parse, w.render);
      match mensagem
      case ValueError =>
        return Crashed;
      case NoMessage =>
        return NotFormatted;
      case Message(_) =>
        var sucessoEnvio := Accepted(w.config, w.reply(p));
        if !sucessoEnvio {
          return SendFailed;
        }
        var written := store.Write(p, w.writable(p));
        o := if written then Delivered else WriteFailed;
  }

  /** One pass of the loop body: the marker check, then the stages when the marker is absent. */
  method VisitDay(store: MarkerStore, p: int, w: World) returns (o: Outcome)
    modifies store
    ensures o == if p in old(store.marked) then Skipped else Stages(w)(p)
    ensures store.marked == if o == Delivered then old(store.marked) + {p} else old(store.marked)
  {
    if store.Has(p) {
      o := Skipped;
    } else {
      o := ProcessDay(store, p, w);
    }
  }

  /** The loop over the days, inside the outer `try`. */
  method ProcessPeriods(store: MarkerStore, ps: seq<int>, w: World) returns (log: seq<Visit>, aborted: bool)
    modifies store
    ensures Pass(store.marked, log, aborted) == Run(ps, old(store.marked), Stages(w))
  {
    log := [];
    var i := 0;
    while i < |ps|
      invariant 0 <= i <= |ps|
      invariant Run(ps, old(store.marked), Stages(w)) == After(log, Run(ps[i..], store.marked, Stages(w)))
    {
      var p := ps[i];
      ghost var before := store.marked;
      var o := VisitDay(store, p, w);
      RunAdvance(ps, i, before, Stages(w), o);
      if Fatal(o) {
        return log + [Visit(p, o)], true;
      }
      log := log + [Visit(p, o)];
      i := i + 1;
    }
    aborted := false;
  }

  /** One step of `Run`, from position `i`. */
  lemma RunStep(ps: seq<int>, i: nat, marked: set<int>, stages: int -> Outcome)
    requires i < |ps|
    ensures var p := ps[i];
      var o := if p in marked then Skipped else stages(p);
      Run(ps[i..], marked, stages) ==
        if Fatal(o) then Pass(marked, [Visit(p, o)], true)
        else After([Visit(p, o)], Run(ps[i + 1..], if o == Delivered then marked + {p} else marked, stages))
  {
    assert ps[i..][1..] == ps[i + 1..];
  }

  /** What the loop body's visit of `ps[i]` does to the rest of the run. */
  lemma RunAdvance(ps: seq<int>, i: nat, marked: set<int>, stages: int -> Outcome, o: Outcome)
    requires i < |ps| && o == if ps[i] in marked then Skipped else stages(ps[i])
    ensures Fatal(o) ==> Run(ps[i..], marked, stages) == Pass(marked, [Visit(ps[i], o)], true)
    ensures !Fatal(o) ==> forall done: seq<Visit> ::
      After(done, Run(ps[i..], marked, stages)) ==
      After(done + [Visit(ps[i], o)], Run(ps[i + 1..], if o == Delivered then marked + {ps[i]} else marked, stages))
  {
    RunStep(ps, i, marked, stages);
  }

  /** The run `r` preceded by the visits already made. */
  function After(done: seq<Visit>, r: Pass): Pass
  {
    Pass(r.marked, done + r.log, r.aborted)
  }

  /** `main`: the configuration check, the readiness gate, the login and the loop. */
  method RunDailyReport(store: MarkerStore, w: World, today: int, probes: nat -> Probe, latency: nat -> nat,
                        browserUp: bool) returns (exit: int, log: seq<Visit>, aborted: bool)
    modifies store
    ensures (exit, Pass(store.marked, log, aborted)) == DailyMain(w, today, probes, latency, browserUp, old(store.marked))
  {
    if !(Truthy(w.config.user) && Truthy(w.config.password) && Truthy(w.config.endpoint)) {
      return 1, [], false;
    }
    var ready, _ := WaitForSessionReady(probes, latency, DefaultTimeout);
    if !ready {
      return 1, [], false;
    }
    if !browserUp {
      return 0, [], true;
    }
    exit := 0;
    log, aborted := ProcessPeriods(store, Candidates(today), w);
  }

  /** The stages never report a skip: only an existing marker skips a day. */
  lemma StagesNeverSkip(w: World)
    ensures forall p :: Stages(w)(p) != Skipped
  {
  }

  /**
   * A day is delivered exactly when the filter succeeded, some target line
   * was extracted, the formatter produced a message, the backend accepted
   * it (200 or 201, with the configuration present) and the marker was written.
   */
  lemma AttemptDelivered(p: int, w: World)
    ensures Attempt(p, w) == Delivered <==>
      && w.page(p).Loaded?
      && ExtractRecords(w.page(p).cards) != []
      && Format(ExtractRecords(w.page(p).cards), FilterText(w.calendar(p)), w.parse, w.render).Message?
      && CanSend(w.config) && (w.reply(p) == Status(200) || w.reply(p) == Status(201))
      && w.writable(p)
  {
  }

  /**
   * The visits follow the days in order; the run stops early exactly at a
   * visit that raised, which is then the last one, and every day after it
   * is abandoned.
   */
  lemma {:induction false} RunVisitsInOrder(ps: seq<int>, marked: set<int>, stages: int -> Outcome)
    ensures var r := Run(ps, marked, stages);
      && |r.log| <= |ps|
      && (forall k :: 0 <= k < |r.log| ==> r.log[k].period == ps[k])
      && (forall k :: 0 <= k < |r.log| - 1 ==> !Fatal(r.log[k].outcome))
      && (r.aborted <==> r.log != [] && Fatal(r.log[|r.log| - 1].outcome))
      && (!r.aborted ==> |r.log| == |ps|)
  {
    if ps != [] {
      var p := ps[0];
      var o := if p in marked then Skipped else stages(p);
      if !Fatal(o) {
        RunVisitsInOrder(ps[1..], if o == Delivered then marked + {p} else marked, stages);
      }
    }
  }

  /**
   * Markers are only ever added, and exactly for the visits that ended
   * Delivered: no marker is written before a send, after a failed send or
   * for a skipped day.
   */
  lemma {:induction false} RunMarkers(ps: seq<int>, marked: set<int>, stages: int -> Outcome)
    ensures var r := Run(ps, marked, stages);
      forall p :: p in r.marked <==> p in marked || Visit(p, Delivered) in r.log
  {
    if ps != [] {
      var p := ps[0];
      var o := if p in marked then Skipped else stages(p);
      if !Fatal(o) {
        RunMarkers(ps[1..], if o == Delivered then marked + {p} else marked, stages);
      }
    }
  }

  /** A day whose marker exists is skipped: nothing is filtered, extracted or sent for it. */
  lemma {:induction false} RunSkipsMarked(ps: seq<int>, marked: set<int>, stages: int -> Outcome)
    ensures var r := Run(ps, marked, stages);
      forall k :: 0 <= k < |r.log| && r.log[k].period in marked ==> r.log[k].outcome == Skipped
  {
    if ps != [] {
      var p := ps[0];
      var o := if p in marked then Skipped else stages(p);
      if !Fatal(o) {
        var m' := if o == Delivered then marked + {p} else marked;
        RunSkipsMarked(ps[1..], m', stages);
        var r := Run(ps, marked, stages);
        forall k | 0 < k < |r.log| && r.log[k].period in marked ensures r.log[k].outcome == Skipped {
          assert r.log[k] == Run(ps[1..], m', stages).log[k - 1];
        }
      }
    }
  }

  /**
   * When the loop is not abandoned, every day ends marked or with a visit
   * showing what its stages made of it.
   */
  lemma {:induction false} RunCovers(ps: seq<int>, marked: set<int>, stages: int -> Outcome)
    ensures var r := Run(ps, marked, stages);
      !r.aborted ==> forall p :: p in ps ==> p in r.marked || Visit(p, stages(p)) in r.log
  {
    if ps != [] {
      var p := ps[0];
      var o := if p in marked then Skipped else stages(p);
      if !Fatal(o) {
        var m' := if o == Delivered then marked + {p} else marked;
        RunCovers(ps[1..], m', stages);
        RunMarkers(ps[1..], m', stages);
      }
    }
  }

  /**
   * Without an exception, a day ends the run marked exactly when it was
   * marked before or its own stages deliver it: a failure on one day does
   * not keep another day from being marked.
   */
  lemma RunIsolation(ps: seq<int>, marked: set<int>, stages: int -> Outcome)
    ensures var r := Run(ps, marked, stages);
      !r.aborted ==> forall p :: p in ps ==> (p in r.marked <==> p in marked || stages(p) == Delivered)
  {
    var r := Run(ps, marked, stages);
    RunCovers(ps, marked, stages);
    RunMarkers(ps, marked, stages);
    if !r.aborted {
      forall p | p in ps ensures p in r.marked <==> p in marked || stages(p) == Delivered {
        if Visit(p, Delivered) in r.log && p !in marked {
          var k :| 0 <= k < |r.log| && r.log[k] == Visit(p, Delivered);
          RunSkipsMarked(ps, marked, stages);
          RunDeliveredIsAttempt(ps, marked, stages, k);
        }
      }
    }
  }

  /** A Delivered visit is what the stages made of that day. */
  lemma {:induction false} RunDeliveredIsAttempt(ps: seq<int>, marked: set<int>, stages: int -> Outcome, k: nat)
    requires var r := Run(ps, marked, stages); k < |r.log| && r.log[k].outcome == Delivered
    ensures stages(Run(ps, marked, stages).log[k].period) == Delivered
  {
    var p := ps[0];
    var o := if p in marked then Skipped else stages(p);
    if k > 0 {
      RunDeliveredIsAttempt(ps[1..], if o == Delivered then marked + {p} else marked, stages, k - 1);
    }
  }

  /** Days that are marked or whose stages stop before sending leave a run with nothing sent. */
  lemma {:induction false} RunQuiet(ps: seq<int>, marked: set<int>, stages: int -> Outcome)
    requires forall p :: p in ps ==> p in marked || stages(p) in {FilterFailed, NoData, NotFormatted}
    ensures var r := Run(ps, marked, stages);
      r.marked == marked && !r.aborted && forall k :: 0 <= k < |r.log| ==> !Sends(r.log[k].outcome)
  {
    if ps != [] {
      assert ps[0] in ps;
      assert forall p :: p in ps[1..] ==> p in ps;
      RunQuiet(ps[1..], marked, stages);
    }
  }

  /**
   * Running again over the same days, after a run that was not abandoned
   * and in which no send failed, sends nothing and changes no marker.
   */
  lemma RunIdempotent(ps: seq<int>, marked: set<int>, stages: int -> Outcome)
    requires forall p :: stages(p) != Skipped
    requires var r := Run(ps, marked, stages);
      !r.aborted && forall k :: 0 <= k < |r.log| ==> r.log[k].outcome != SendFailed
    ensures var r := Run(ps, marked, stages);
      var again := Run(ps, r.marked, stages);
      again.marked == r.marked && !again.aborted && forall k :: 0 <= k < |again.log| ==> !Sends(again.log[k].outcome)
  {
    var r := Run(ps, marked, stages);
    RunCovers(ps, marked, stages);
    RunMarkers(ps, marked, stages);
    RunVisitsInOrder(ps, marked, stages);
    forall p | p in ps ensures p in r.marked || stages(p) in {FilterFailed, NoData, NotFormatted} {
      if p !in r.marked {
        var k :| 0 <= k < |r.log| && r.log[k] == Visit(p, stages(p));
      }
    }
    RunQuiet(ps, r.marked, stages);
  }

  /**
   * Three days without markers, where the middle day's filter fails and the
   * others deliver: the outer days are marked and the middle day is left
   * for the next run.
   */
  lemma MiddleDayFails(today: int, stages: int -> Outcome)
    requires stages(today - 3) == Delivered && stages(today - 1) == Delivered
    requires stages(today - 2) == FilterFailed
    ensures Run(Candidates(today), {}, stages) ==
      Pass({today - 3, today - 1}, [Visit(today - 3, Delivered), Visit(today - 2, FilterFailed), Visit(today - 1, Delivered)], false)
  {
    var ps := Candidates(today);
    assert ps[0..] == ps && ps[3..] == [];
    RunStep(ps, 0, {}, stages);
    var none: set<int> := {};
    assert none + {today - 3} == {today - 3};
    RunStep(ps, 1, {today - 3}, stages);
    RunStep(ps, 2, {today - 3}, stages);
    assert {today - 3} + {today - 1} == {today - 3, today - 1};
    assert [Visit(today - 2, FilterFailed)] + [Visit(today - 1, Delivered)] == [Visit(today - 2, FilterFailed), Visit(today - 1, Delivered)];
    assert [Visit(today - 3, Delivered)] + [Visit(today - 2, FilterFailed), Visit(today - 1, Delivered)]
        == [Visit(today - 3, Delivered), Visit(today - 2, FilterFailed), Visit(today - 1, Delivered)];
  }

  /**
   * An exception on the oldest day abandons the run: the later days are not
   * visited, even a day whose stages would deliver it.
   */
  lemma OldestDayRaises(today: int, stages: int -> Outcome)
    requires stages(today - 3) == Crashed
    ensures Run(Candidates(today), {}, stages) == Pass({}, [Visit(today - 3, Crashed)], true)
  {
    var ps := Candidates(today);
    assert ps[0..] == ps;
    RunStep(ps, 0, {}, stages);
  }

  /**
   * `main` exits with status 1 only for missing configuration or a backend
   * that never became ready; failed days never change the exit status, and
   * nothing is visited or marked when it exits 1.
   */
  lemma DailyExitStatus(w: World, today: int, probes: nat -> Probe, latency: nat -> nat, browserUp: bool, marked: set<int>)
    ensures var (exit, r) := DailyMain(w, today, probes, latency, browserUp, marked);
      && (exit == 1 <==> !LoginConfigured(w.config) || !AwaitReady(probes, latency, DefaultTimeout).ready)
      && (exit == 1 ==> r == Pass(marked, [], false))
      && exit in {0, 1}
  {
  }
}
