/**
 * The Windows service that keeps the collectors running: its main loop wakes
 * up, starts the price collector when two hours have passed since its last
 * start and the chat collector when four hours have, and repeats until the
 * service is asked to stop.
 *
 * The loop is infinite and stopping comes from another thread, so the
 * environment is a finite trace of events: a wake-up of the loop with the
 * clock reading of that iteration, or a stop request. Starting a script is
 * recorded as a Launch; it never fails.
 */
module CollectorService {
  import opened Wrappers

  datatype Script = PriceCollector | CollectChat

  /** A start of a script, stamped with the clock reading of the iteration that started it. */
  datatype Launch = Launch(script: Script, at: int)

  /** Seconds between two starts of the price collector. */
  const PriceInterval: int := 7200
  /** Seconds between two starts of the chat collector. */
  const ChatInterval: int := 14400

  /** The main loop's last_price_run and last_chat_run. */
  datatype Timers = Timers(lastPrice: Option<int>, lastChat: Option<int>)

  /** What happens between two checks of the loop head. */
  datatype Event = Wake(now: int) | StopRequested

  /** The service as the loop sees it: the running flag, the timers and every start so far. */
  datatype Service = Service(running: bool, timers: Timers, launched: seq<Launch>)

  /** The state when the loop is entered. */
  function Initial(): Service
  {
    Service(true, Timers(None, None), [])
  }

  /** A script is due when it never ran or its interval has passed since its last start. */
  predicate Due(last: Option<int>, now: int, interval: int)
  {
    last.None? || now - last.value >= interval
  }

  datatype Iterated = Iterated(timers: Timers, launched: seq<Launch>)

  /** One pass through the body of the main loop, at clock reading `now`. */
  function Iteration(t: Timers, now: int): (r: Iterated)
    ensures Launch(PriceCollector, now) in r.launched <==> Due(t.lastPrice, now, PriceInterval)
    ensures Launch(CollectChat, now) in r.launched <==> Due(t.lastChat, now, ChatInterval)
    ensures forall i :: 0 <= i < |r.launched| ==> r.launched[i].at == now
    ensures forall i, j :: 0 <= i < j < |r.launched| ==>
      r.launched[i].script == PriceCollector && r.launched[j].script == CollectChat
    ensures r.timers.lastPrice == t.lastPrice || Launch(PriceCollector, now) in r.launched
    ensures Launch(PriceCollector, now) in r.launched ==> r.timers.lastPrice == Some(now)
    ensures r.timers.lastChat == t.lastChat || Launch(CollectChat, now) in r.launched
    ensures Launch(CollectChat, now) in r.launched ==> r.timers.lastChat == Some(now)
  {
    var price := Due(t.lastPrice, now, PriceInterval);
    var chat := Due(t.lastChat, now, ChatInterval);
    Iterated(
      Timers(if price then Some(now) else t.lastPrice, if chat then Some(now) else t.lastChat),
      (if price then [Launch(PriceCollector, now)] else []) + (if chat then [Launch(CollectChat, now)] else []))
  }

  /** The main loop over a trace of events; it ends when the running flag is found cleared at the loop head. */
  function Run(s: Service, events: seq<Event>): (r: Service)
    ensures s.launched <= r.launched
    ensures !s.running ==> r == s
    decreases |events|
  {
    if events == [] || !s.running then s
    else match events[0]
      case StopRequested => Run(s.(running := false), events[1..])
      case Wake(now) =>
        var it := Iteration(s.timers, now);
        Run(Service(true, it.timers, s.launched + it.launched), events[1..])
  }

  /** Any two starts of `script` are at least `gap` seconds apart in iteration time. */
  predicate Spaced(log: seq<Launch>, script: Script, gap: int)
  {
    forall i, j :: 0 <= i < j < |log| && log[i].script == script && log[j].script == script ==>
      log[j].at - log[i].at >= gap
  }

  /** The timer of `script` is set, and is no earlier than any start of it, as soon as it has started once. */
  predicate Tracks(log: seq<Launch>, last: Option<int>, script: Script)
  {
    forall i :: 0 <= i < |log| && log[i].script == script ==> last.Some? && log[i].at <= last.value
  }

  predicate Consistent(s: Service)
  {
    && Tracks(s.launched, s.timers.lastPrice, PriceCollector)
    && Spaced(s.launched, PriceCollector, PriceInterval)
    && Tracks(s.launched, s.timers.lastChat, CollectChat)
    && Spaced(s.launched, CollectChat, ChatInterval)
  }

  /** One iteration keeps every start spaced and both timers in step with the starts. */
  lemma IterationKeepsConsistent(s: Service, now: int)
    requires Consistent(s)
    ensures Consistent(Service(true, Iteration(s.timers, now).timers, s.launched + Iteration(s.timers, now).launched))
  {
  }

  /** The loop keeps every start spaced and both timers in step with the starts. */
  lemma {:induction false} RunKeepsConsistent(s: Service, events: seq<Event>)
    requires Consistent(s)
    ensures Consistent(Run(s, events))
    decreases |events|
  {
    if events != [] && s.running {
      match events[0]
      case StopRequested =>
        RunKeepsConsistent(s.(running := false), events[1..]);
      case Wake(now) =>
        var it := Iteration(s.timers, now);
        IterationKeepsConsistent(s, now);
        RunKeepsConsistent(Service(true, it.timers, s.launched + it.launched), events[1..]);
    }
  }

  /**
   * Whatever the clock does, the price collector starts at most once per
   * two hours and the chat collector at most once per four hours.
   */
  lemma ScriptsKeepTheirIntervals(events: seq<Event>)
    ensures Spaced(Run(Initial(), events).launched, PriceCollector, PriceInterval)
    ensures Spaced(Run(Initial(), events).launched, CollectChat, ChatInterval)
  {
    RunKeepsConsistent(Initial(), events);
  }

  /** The first iteration starts both scripts, the price collector first. */
  lemma FirstIterationStartsBoth(now: int, rest: seq<Event>)
    ensures |Run(Initial(), [Wake(now)] + rest).launched| >= 2
    ensures Run(Initial(), [Wake(now)] + rest).launched[..2] == [Launch(PriceCollector, now), Launch(CollectChat, now)]
  {
  }

  /** Once a stop request is seen, no further iteration begins and the service ends stopped. */
  lemma {:induction false} NothingAfterStop(s: Service, events: seq<Event>, k: nat)
    requires k < |events| && events[k] == StopRequested
    ensures Run(s, events) == Run(s, events[..k + 1])
    ensures !Run(s, events).running
    decreases k
  {
    if s.running {
      assert events[..k + 1][0] == events[0];
      assert events[..k + 1][1..] == events[1..][..k];
      if k > 0 {
        match events[0]
        case StopRequested =>
        case Wake(now) =>
          var it := Iteration(s.timers, now);
          NothingAfterStop(Service(true, it.timers, s.launched + it.launched), events[1..], k - 1);
      }
    }
  }

  /** The service object: the running flag, the loop's timers and the scripts started so far. */
  class CryptoCollectorService {
    var running: bool
    var lastPriceRun: Option<int>
    var lastChatRun: Option<int>
    var launched: seq<Launch>

    function State(): Service
      reads this
    {
      Service(running, Timers(lastPriceRun, lastChatRun), launched)
    }

    ghost predicate Valid()
      reads this
    {
      Consistent(State())
    }

    /** The service starts running; both timers start unset, as the loop's locals do. */
    constructor ()
      ensures Valid() && State() == Initial()
    {
      running := true;
      lastPriceRun := None;
      lastChatRun := None;
      launched := [];
    }

    /** A stop request only clears the running flag. */
    method SvcStop()
      modifies this`running
      ensures !running
    {
      running := false;
    }

    /** Starts a script; whatever the script does, this never fails. */
    method RunScript(script: Script, now: int)
      modifies this`launched
      ensures launched == old(launched) + [Launch(script, now)]
    {
      launched := launched + [Launch(script, now)];
    }

    /** The body of the main loop with the clock reading `now`. */
    method Step(now: int)
      requires Valid()
      modifies this`lastPriceRun, this`lastChatRun, this`launched
      ensures Valid()
      ensures Timers(lastPriceRun, lastChatRun) == Iteration(old(Timers(lastPriceRun, lastChatRun)), now).timers
      ensures launched == old(launched) + Iteration(old(Timers(lastPriceRun, lastChatRun)), now).launched
    {
      ghost var before := State();
      var currentTime := now;
      if lastPriceRun.None? || currentTime - lastPriceRun.value >= PriceInterval {
        RunScript(PriceCollector, currentTime);
        lastPriceRun := Some(currentTime);
      }
      if lastChatRun.None? || currentTime - lastChatRun.value >= ChatInterval {
        RunScript(CollectChat, currentTime);
        lastChatRun := Some(currentTime);
      }
      ghost var it := Iteration(before.timers, now);
      assert Timers(lastPriceRun, lastChatRun) == it.timers;
      assert launched == before.launched + it.launched;
      IterationKeepsConsistent(before, now);
    }

    /** The main loop: iterate while running, over the events of the trace. */
    method MainLoop(events: seq<Event>)
      requires Valid()
      modifies this
      ensures Valid()
      ensures State() == Run(old(State()), events)
    {
      var i := 0;
      while running && i < |events|
        invariant 0 <= i <= |events|
        invariant Valid()
        invariant Run(old(State()), events) == Run(State(), events[i..])
      {
        assert events[i..][1..] == events[i + 1..];
        match events[i]
        case StopRequested =>
          SvcStop();
        case Wake(now) =>
          Step(now);
        i := i + 1;
      }
    }
  }
}
