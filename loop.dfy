/**
 * The detection loop of app.js: the module-level flags (app.js:14-17), the
 * model-load transitions of `initWllama` (app.js:27-51), the guard and
 * self-rescheduling of `runInference` (app.js:66-108), `parseAndDisplay`
 * (app.js:110-147) as it writes the card, and the start, pause and stop
 * handlers (app.js:150-177). Asynchronous completions and the 1000 ms timer
 * are events: each awaited `createCompletion` is counted in `inFlight` until
 * InferDone or InferFail, each `setTimeout(runInference, 1000)` in `timers`
 * until TimerFire.
 */
module Loop {
  import opened Wrappers
  import opened Js
  import opened Span
  import opened Extractor

  const DownloadingStatus := "Downloading AI Model..."
  const ReadyStatus := "AI Ready - Press Start"
  const LoadErrorStatus := "Error Loading Model"
  const AnalyzingStatus := "Analyzing..."

  class Detector {
    /** `JSON.parse` and number-to-text, as the page's script engine has them. */
    const host: Host

    var isModelLoaded: bool
    var isDetecting: bool
    /** Assigned nowhere after its initialisation to null. */
    var lastResult: Option<Display>

    /** The result card, the status pill, the latency readout and the two
        buttons' visibility. */
    var display: Display
    var status: string
    var latency: Option<nat>
    var startShown: bool
    var pauseShown: bool

    /** `initWllama` has run; the page calls it once, on window load. */
    var loadStarted: bool
    /** A `loadModelFromUrl` that has not settled yet. */
    var loadPending: bool
    /** Awaited `createCompletion` calls that have not settled. */
    var inFlight: nat
    /** Scheduled `setTimeout(runInference, 1000)` calls that have not fired. */
    var timers: nat
    /** The "Scan saved to local History." alerts raised by Stop. */
    var saveAlerts: nat

    /** Start calls made while a chain (a call in flight or a pending timer)
        was still live. */
    ghost var overlappingStarts: nat

    /** Each chain holds one call or one timer, a second chain existing only
        through a Start made while one was live. */
    ghost predicate Valid()
      reads this
    {
      inFlight + timers <= 1 + overlappingStarts
    }

    /** Module initialisation (app.js:14-17) over the page's initial markup. */
    constructor (host: Host, card: Display, status: string, startShown: bool, pauseShown: bool)
      ensures Valid()
      ensures this.host == host && display == card && this.status == status
      ensures this.startShown == startShown && this.pauseShown == pauseShown
      ensures !isModelLoaded && !isDetecting && lastResult == None && latency == None
      ensures !loadStarted && !loadPending && inFlight == 0 && timers == 0 && saveAlerts == 0
      ensures overlappingStarts == 0
    {
      this.host := host;
      isModelLoaded := false;
      isDetecting := false;
      lastResult := None;
      display := card;
      this.status := status;
      latency := None;
      this.startShown := startShown;
      this.pauseShown := pauseShown;
      loadStarted := false;
      loadPending := false;
      inFlight := 0;
      timers := 0;
      saveAlerts := 0;
      overlappingStarts := 0;
    }

    /** `initWllama` up to its await (app.js:28-35), run once by the window
        load handler (app.js:180-183). */
    method InitWllama()
      requires Valid() && !loadStarted
      modifies this`status, this`loadStarted, this`loadPending
      ensures Valid()
      ensures status == DownloadingStatus && loadStarted && loadPending
    {
      status := DownloadingStatus;
      loadStarted := true;
      loadPending := true;
    }

    /** The load resolves (app.js:43-45): the only place isModelLoaded is set. */
    method LoadOk()
      requires Valid() && loadPending
      modifies this`isModelLoaded, this`status, this`loadPending
      ensures Valid()
      ensures isModelLoaded && status == ReadyStatus && !loadPending
    {
      isModelLoaded := true;
      status := ReadyStatus;
      loadPending := false;
    }

    /** The load rejects (app.js:46-49): the flag keeps its value. */
    method LoadFail()
      requires Valid() && loadPending
      modifies this`status, this`loadPending
      ensures Valid()
      ensures status == LoadErrorStatus && !loadPending
    {
      status := LoadErrorStatus;
      loadPending := false;
    }

    /** `runInference` up to its await (app.js:66-89): nothing at all unless
        both flags are set; otherwise one more call is in flight. Capturing
        and encoding the frame is left out. The precondition is only the
        chain bookkeeping: its two callers, Start and TimerFire, have just
        counted a new chain or used up a pending timer, so there is room for
        one more call. */
    method RunInference() returns (launched: bool)
      requires Valid() && inFlight + timers <= overlappingStarts
      modifies this`status, this`inFlight
      ensures Valid()
      ensures launched <==> isDetecting && isModelLoaded
      ensures inFlight == old(inFlight) + (if launched then 1 else 0)
      ensures status == if launched then AnalyzingStatus else old(status)
    {
      if !isDetecting || !isModelLoaded {
        return false;
      }
      status := AnalyzingStatus;
      inFlight := inFlight + 1;
      launched := true;
    }

    /** `parseAndDisplay(raw)` (app.js:110-147): the card writes in the
        source's order, left where a throw stops them. */
    method ParseAndDisplay(raw: string)
      modifies this`display
      ensures display == Apply(old(display), raw, host)
    {
      var span := FindSpan(raw);
      if span.None? {
        return;
      }
      var parsed := host.parse(SpanText(raw, span.value));
      if parsed.None? {
        return;  // SyntaxError, caught
      }
      WriteCard(parsed.value);
    }

    /** The writes of app.js:119-142 for the parsed value `data`. */
    method WriteCard(data: Json)
      modifies this`display
      ensures display == Render(old(display), data, host.numberText)
    {
      var nt := host.numberText;
      if data.Null? {
        return;  // TypeError reading data.category, caught
      }
      var category := OrText(Member(data, "category"), "UNKNOWN", nt);
      if category.None? {
        return;
      }
      display := display.(category := category.value);
      var name := OrText(Member(data, "name"), "Object", nt);
      if name.None? {
        return;
      }
      display := display.(name := name.value);
      var count := OrText(Member(data, "count"), "--", nt);
      if count.None? {
        return;
      }
      display := display.(countText := "Count: " + count.value);
      display := display.(matches := []);
      var list := Member(data, "near_matches");
      if Truthy(list) {
        if !(list.Of? && list.json.Arr?) {
          return;  // forEach is not a function, caught
        }
        var complete := AppendChips(list.json.items);
        if !complete {
          return;  // TypeError inside forEach, caught
        }
      }
      display := display.(damageVisible := Truthy(Member(data, "damaged")));
      display := display.(cardVisible := true);
    }

    /** The `forEach` of app.js:126-131 over a cleared list: appends the
        entries' chips in order and stops at the first that throws. */
    method AppendChips(items: seq<Json>) returns (complete: bool)
      requires display.matches == []
      modifies this`display
      ensures complete == ChipRun(items, host.numberText).1
      ensures display == old(display).(matches := ChipRun(items, host.numberText).0)
    {
      var nt := host.numberText;
      var i := 0;
      while i < |items|
        invariant 0 <= i <= |items|
        invariant ChipRun(items[..i], nt) == (display.matches, true)
        invariant display == old(display).(matches := display.matches)
      {
        var chip := Chip(items[i], nt);
        if chip.None? {
          ChipRunPrefixFails(items, i, nt);
          return false;
        }
        assert items[..i + 1][..i] == items[..i];
        display := display.(matches := display.matches + [chip.value]);
        i := i + 1;
      }
      assert items[..i] == items;
      complete := true;
    }

    /** The start handler (app.js:150-155): sets isDetecting without looking
        at isModelLoaded, swaps the buttons and calls runInference at once. */
    method Start()
      requires Valid()
      modifies this`isDetecting, this`startShown, this`pauseShown, this`status,
               this`inFlight, this`overlappingStarts
      ensures Valid()
      ensures isDetecting && !startShown && pauseShown
      ensures overlappingStarts == old(overlappingStarts) + (if old(inFlight + timers) > 0 then 1 else 0)
      ensures inFlight == old(inFlight) + (if isModelLoaded then 1 else 0)
      ensures status == if isModelLoaded then AnalyzingStatus else old(status)
    {
      if inFlight + timers > 0 {
        overlappingStarts := overlappingStarts + 1;
      }
      isDetecting := true;
      startShown := false;
      pauseShown := true;
      var _ := RunInference();
    }

    /** The pause handler (app.js:157-162). */
    method Pause()
      requires Valid()
      modifies this`isDetecting, this`startShown, this`pauseShown
      ensures Valid()
      ensures !isDetecting && startShown && !pauseShown
    {
      isDetecting := false;
      pauseShown := false;
      startShown := true;
    }

    /** The stop handler (app.js:164-177): as Pause, then the save alert when
        lastResult is set, then the card is hidden. No method has lastResult
        in its modifies clause, so it keeps the None the constructor gives it
        and the alert never fires. */
    method Stop()
      requires Valid()
      modifies this`isDetecting, this`startShown, this`pauseShown, this`saveAlerts, this`display
      ensures Valid()
      ensures !isDetecting && startShown && !pauseShown
      ensures saveAlerts == old(saveAlerts) + (if lastResult.Some? then 1 else 0)
      ensures display == old(display).(cardVisible := false)
    {
      isDetecting := false;
      pauseShown := false;
      startShown := true;
      if lastResult.Some? {
        saveAlerts := saveAlerts + 1;
      }
      display := display.(cardVisible := false);
    }

    /** A call resolves with `text` after `ms` milliseconds (app.js:95-98,
        104-107): latency first, then the card, then one timer exactly when
        detection is still on. */
    method InferDone(text: string, ms: nat)
      requires Valid() && inFlight > 0
      modifies this`inFlight, this`latency, this`display, this`timers
      ensures Valid()
      ensures inFlight == old(inFlight) - 1
      ensures latency == Some(ms)
      ensures display == Apply(old(display), text, host)
      ensures timers == old(timers) + (if isDetecting then 1 else 0)
    {
      inFlight := inFlight - 1;
      latency := Some(ms);
      ParseAndDisplay(text);
      if isDetecting {
        timers := timers + 1;
      }
    }

    /** A call rejects (app.js:100-107): latency, card and flags untouched,
        one timer exactly when detection is still on. */
    method InferFail()
      requires Valid() && inFlight > 0
      modifies this`inFlight, this`timers
      ensures Valid()
      ensures inFlight == old(inFlight) - 1
      ensures timers == old(timers) + (if isDetecting then 1 else 0)
    {
      inFlight := inFlight - 1;
      if isDetecting {
        timers := timers + 1;
      }
    }

    /** A pending timer fires and calls runInference. */
    method TimerFire()
      requires Valid() && timers > 0
      modifies this`timers, this`status, this`inFlight
      ensures Valid()
      ensures timers == old(timers) - 1
      ensures inFlight == old(inFlight) + (if isDetecting && isModelLoaded then 1 else 0)
      ensures status == if isDetecting && isModelLoaded then AnalyzingStatus else old(status)
    {
      timers := timers - 1;
      var _ := RunInference();
    }
  }

  /** With no Start made while a chain was live, at most one chain is live:
      one call in flight or one timer pending, never both, never two. */
  lemma AtMostOneChain(d: Detector)
    requires d.Valid() && d.overlappingStarts == 0
    ensures d.inFlight + d.timers <= 1
    ensures d.inFlight <= 1
  {
  }

  const BlankCard := Display("", "", "", [], false, false)

  /** Starting only when idle keeps a single chain: a completion, a timer
      firing and a Stop never open a second one, and a Start after the chain
      has died out counts no overlap. */
  method SingleChainWhenIdleStarts() returns (outstanding: nat, live: nat)
    ensures outstanding == 1 && live == 1
  {
    var d := new Detector(Host(s => None, x => ""), BlankCard, "", true, false);
    d.InitWllama();
    d.LoadOk();
    d.Start();
    d.InferFail();
    d.TimerFire();
    d.Stop();
    d.InferDone("no json here", 640);
    assert d.inFlight == 0 && d.timers == 0;
    d.Start();
    assert d.overlappingStarts == 0;
    AtMostOneChain(d);
    outstanding, live := d.inFlight, d.inFlight + d.timers;
  }

  /** Pause then Start while a call is still outstanding starts a second
      chain: two calls are in flight at once. */
  method SecondChainWitness() returns (outstanding: nat)
    ensures outstanding == 2
  {
    var d := new Detector(Host(s => None, x => ""), BlankCard, "", true, false);
    d.InitWllama();
    d.LoadOk();
    d.Start();
    d.Pause();
    d.Start();
    outstanding := d.inFlight;
  }

  /** Start before the model has loaded: detection is on and the pause
      button shown, but no chain is live, and the load resolving starts none. */
  method EarlyStartStalls() returns (detecting: bool, live: nat, pauseShown: bool)
    ensures detecting && live == 0 && pauseShown
  {
    var d := new Detector(Host(s => None, x => ""), BlankCard, "", true, false);
    d.InitWllama();
    d.Start();
    d.LoadOk();
    detecting, live, pauseShown := d.isDetecting, d.inFlight + d.timers, d.pauseShown;
  }

  /** Pause lets the chain die out at its next timer, and Start resumes the
      cycle with no new model load. */
  method PauseThenStartResumes() returns (outstanding: nat, loading: bool, status: string)
    ensures outstanding == 1 && !loading && status == AnalyzingStatus
  {
    var d := new Detector(Host(s => None, x => ""), BlankCard, "", true, false);
    d.InitWllama();
    d.LoadOk();
    d.Start();
    d.InferDone("no json here", 900);
    d.Pause();
    d.TimerFire();
    assert d.inFlight == 0 && d.timers == 0;
    d.Start();
    outstanding, loading, status := d.inFlight, d.loadPending, d.status;
  }

  /** Stop after a successful result: no save alert, the card hidden. */
  method StopAfterResult() returns (shownBefore: bool, alerts: nat, shownAfter: bool)
    ensures shownBefore && alerts == 0 && !shownAfter
  {
    var host := Host(s => Some(Obj(map[])), x => "");
    var d := new Detector(host, BlankCard, "", true, false);
    d.InitWllama();
    d.LoadOk();
    d.Start();
    EmptyObjectDefaults(BlankCard, host);
    d.InferDone("{}", 350);
    shownBefore := d.display.cardVisible;
    d.Stop();
    alerts, shownAfter := d.saveAlerts, d.display.cardVisible;
  }

  /** Stop does not cancel a call in flight, and the completion has no guard
      on isDetecting before it writes the card: a reply arriving after Stop
      shows the card again. */
  method LateReplyAfterStopShowsCard() returns (hiddenByStop: bool, shownAfter: bool)
    ensures hiddenByStop && shownAfter
  {
    var host := Host(s => Some(Obj(map[])), x => "");
    var d := new Detector(host, BlankCard, "", true, false);
    d.InitWllama();
    d.LoadOk();
    d.Start();
    d.Stop();
    hiddenByStop := !d.display.cardVisible;
    EmptyObjectDefaults(d.display, host);
    d.InferDone("{}", 480);
    shownAfter := d.display.cardVisible;
  }
}
