/** streaming/replay_buffer.py: a bounded per-run event buffer from which a client resumes after its last
    event id. */
module ReplayBuffer {
  import opened Common
  import opened DecimalText
  import opened ColonText
  import opened PythonInt

  datatype Payload = Inline(text: string) | Reference(runId: int, sequence: int)

  datatype Event = Event(runId: int, attemptId: Option<int>, sequence: int, payload: Payload)

  datatype Error = WrongRun | NotANumber | Expired(lastSequence: int)

  function EventId(runId: int, sequence: int): string {
    IntText(runId) + ":" + IntText(sequence)
  }

  function ParseEventId(runId: int, id: string): Result<int, Error> {
    var prefix := IntText(runId) + ":";
    if !(prefix <= id) then Err(WrongRun)
    else
      match ParseInt(id[|prefix|..])
      case Some(n) => Ok(n)
      case None => Err(NotANumber)
  }

  lemma OwnRunParses(runId: int, text: string)
    ensures ParseEventId(runId, IntText(runId) + ":" + text)
         == if ParseInt(text).Some? then Ok(ParseInt(text).value) else Err(NotANumber)
  {
    var prefix := IntText(runId) + ":";
    assert (prefix + text)[|prefix|..] == text;
  }

  /** Event ids come back as the sequence they name, also with white space around the number. */
  lemma EventIdRoundTrip(runId: int, sequence: int, before: string, after: string)
    requires Blank(before) && Blank(after)
    ensures ParseEventId(runId, EventId(runId, sequence)) == Ok(sequence)
    ensures ParseEventId(runId, IntText(runId) + ":" + (before + IntText(sequence) + after)) == Ok(sequence)
  {
    OwnRunParses(runId, before + IntText(sequence) + after);
    PaddedRoundTrip(before, sequence, after);
    OwnRunParses(runId, IntText(sequence));
    PaddedRoundTrip([], sequence, []);
    assert [] + IntText(sequence) + [] == IntText(sequence);
  }

  /** An event id names no other run. */
  lemma EventIdOtherRun(runId: int, sequence: int, otherRun: int)
    requires otherRun != runId
    ensures ParseEventId(otherRun, EventId(runId, sequence)) == Err(WrongRun)
  {
    if IntText(otherRun) + ":" <= EventId(runId, sequence) {
      IntTextNoColon(otherRun);
      IntTextNoColon(runId);
      ColonPrefix(IntText(otherRun), IntText(runId), IntText(sequence));
      IntTextInjective(otherRun, runId);
    }
  }

  /** history[i] is the event of sequence i + 1; the buffer holds the newest ones. */
  predicate Numbered(history: seq<Event>) {
    forall i :: 0 <= i < |history| ==> history[i].sequence == i + 1
  }

  function Dropped(n: nat, max: int): nat {
    Max(n - Max(max, 0), 0)
  }

  function Retained(history: seq<Event>, max: int): seq<Event> {
    history[Dropped(|history|, max)..]
  }

  /** del events[: len(events) - max] when there are more than max. */
  function Trimmed(events: seq<Event>, max: int): seq<Event> {
    if |events| > max then events[|events| - Max(max, 0)..] else events
  }

  lemma NumberedNext(history: seq<Event>, e: Event)
    requires Numbered(history) && e.sequence == |history| + 1
    ensures Numbered(history + [e])
  {
  }

  lemma RetainedNext(history: seq<Event>, e: Event, max: int)
    ensures Trimmed(Retained(history, max) + [e], max) == Retained(history + [e], max)
  {
  }

  function Later(events: seq<Event>, last: int): seq<Event> {
    if events == [] then []
    else
      var init, e := events[..|events| - 1], events[|events| - 1];
      if e.sequence > last then Later(init, last) + [e] else Later(init, last)
  }

  function Replay(events: seq<Event>, last: int): Result<seq<Event>, Error> {
    if events != [] && last < events[0].sequence then Err(Expired(last)) else Ok(Later(events, last))
  }

  function ListOf(lists: map<int, seq<Event>>, runId: int): seq<Event> {
    if runId in lists then lists[runId] else []
  }

  function NextOf(next: map<int, int>, runId: int): int {
    if runId in next then next[runId] else 1
  }

  /** The buffer of a run is the retained part of its history, and numbers its next event accordingly. */
  predicate TracksRun(events: seq<Event>, next: int, history: seq<Event>, max: int) {
    Numbered(history) && events == Retained(history, max) && next == |history| + 1
  }

  predicate Tracks(events: map<int, seq<Event>>, next: map<int, int>, history: map<int, seq<Event>>, max: int,
                   runId: int) {
    TracksRun(ListOf(events, runId), NextOf(next, runId), ListOf(history, runId), max)
  }

  lemma AppendTracksRun(events: seq<Event>, next: int, history: seq<Event>, max: int, e: Event)
    requires TracksRun(events, next, history, max) && e.sequence == next
    ensures TracksRun(Trimmed(events + [e], max), next + 1, history + [e], max)
  {
    RetainedNext(history, e, max);
    NumberedNext(history, e);
  }

  lemma ListOfUpdated(lists: map<int, seq<Event>>, id: int, list: seq<Event>, runId: int)
    ensures ListOf(lists[id := list], runId) == if runId == id then list else ListOf(lists, runId)
  {
  }

  lemma AppendTracks(events: map<int, seq<Event>>, next: map<int, int>, history: map<int, seq<Event>>, max: int,
                     e: Event, runId: int)
    requires Tracks(events, next, history, max, runId) && (runId == e.runId ==> e.sequence == NextOf(next, runId))
    ensures Tracks(events[e.runId := Trimmed(ListOf(events, e.runId) + [e], max)], next[e.runId := e.sequence + 1],
                   history[e.runId := ListOf(history, e.runId) + [e]], max, runId)
  {
    ListOfUpdated(events, e.runId, Trimmed(ListOf(events, e.runId) + [e], max), runId);
    ListOfUpdated(history, e.runId, ListOf(history, e.runId) + [e], runId);
    if runId == e.runId {
      AppendTracksRun(ListOf(events, runId), e.sequence, ListOf(history, runId), max, e);
    }
  }

  ghost predicate AllTracked(events: map<int, seq<Event>>, next: map<int, int>, history: map<int, seq<Event>>,
                             max: int) {
    forall runId :: Tracks(events, next, history, max, runId)
  }

  lemma AppendAllTracked(events: map<int, seq<Event>>, next: map<int, int>, history: map<int, seq<Event>>, max: int,
                         e: Event)
    requires AllTracked(events, next, history, max) && e.sequence == NextOf(next, e.runId)
    ensures AllTracked(events[e.runId := Trimmed(ListOf(events, e.runId) + [e], max)], next[e.runId := e.sequence + 1],
                       history[e.runId := ListOf(history, e.runId) + [e]], max)
  {
    var newEvents := events[e.runId := Trimmed(ListOf(events, e.runId) + [e], max)];
    var newNext := next[e.runId := e.sequence + 1];
    var newHistory := history[e.runId := ListOf(history, e.runId) + [e]];
    forall run ensures Tracks(newEvents, newNext, newHistory, max, run) {
      assert Tracks(events, next, history, max, run);
      AppendTracks(events, next, history, max, e, run);
    }
  }

  class Buffer {
    const maxEvents: int
    const maxBytes: int
    var events: map<int, seq<Event>>
    var nextSequence: map<int, int>
    ghost var history: map<int, seq<Event>>

    ghost predicate Valid()
      reads this
    {
      AllTracked(events, nextSequence, history, maxEvents)
    }

    constructor (maxEvents: int, maxBytes: int)
      ensures Valid() && this.maxEvents == maxEvents && this.maxBytes == maxBytes && history == map[]
    {
      this.maxEvents, this.maxBytes := maxEvents, maxBytes;
      events, nextSequence, history := map[], map[], map[];
    }

    /** size is the encoded length of the payload. */
    method Append(runId: int, attemptId: Option<int>, text: string, size: int) returns (stored: Event)
      requires Valid()
      modifies this
      ensures Valid()
      ensures history == old(history)[runId := ListOf(old(history), runId) + [stored]]
      ensures stored.runId == runId && stored.attemptId == attemptId
      ensures stored.sequence == |ListOf(old(history), runId)| + 1
      ensures stored.payload == if size <= maxBytes then Inline(text) else Reference(runId, stored.sequence)
    {
      assert Tracks(events, nextSequence, history, maxEvents, runId);
      var sequence := NextOf(nextSequence, runId);
      var payload := if size <= maxBytes then Inline(text) else Reference(runId, sequence);
      stored := Event(runId, attemptId, sequence, payload);
      AppendAllTracked(events, nextSequence, history, maxEvents, stored);
      events := events[runId := Trimmed(ListOf(events, runId) + [stored], maxEvents)];
      nextSequence := nextSequence[runId := sequence + 1];
      history := history[runId := ListOf(history, runId) + [stored]];
    }

    method ReplayFrom(runId: int, lastEventId: Option<string>) returns (r: Result<seq<Event>, Error>)
      requires Valid()
      ensures lastEventId.None? ==> r == Ok(Retained(ListOf(history, runId), maxEvents))
      ensures lastEventId.Some? ==>
        match ParseEventId(runId, lastEventId.value)
        case Err(e) => r == Err(e)
        case Ok(last) => r == Replay(Retained(ListOf(history, runId), maxEvents), last)
    {
      assert Tracks(events, nextSequence, history, maxEvents, runId);
      if lastEventId.None? {
        return Ok(ListOf(events, runId));
      }
      match ParseEventId(runId, lastEventId.value)
      case Err(e) => r := Err(e);
      case Ok(last) => r := Replay(ListOf(events, runId), last);
    }
  }

  lemma {:induction false} LaterIsSuffix(history: seq<Event>, from: nat, last: int)
    requires Numbered(history) && from <= |history| && from <= last
    ensures Later(history[from..], last) == if last < |history| then history[last..] else []
  {
    if from < |history| {
      var init := history[..|history| - 1];
      assert history[from..][..|history| - from - 1] == init[from..];
      LaterIsSuffix(init, from, last);
    }
  }

  /** How many events a client that names this sequence has seen: none before the first, all past the newest. */
  function Seen(history: seq<Event>, last: int): nat {
    if last < 0 then 0 else if last > |history| then |history| else last
  }

  /** What a resuming client gets, whatever sequence it names. A replay that succeeds hands over exactly the events it
      has not seen, unless the buffer was configured to hold nothing. */
  lemma ResumeExact(history: seq<Event>, max: int, last: int)
    requires Numbered(history)
    ensures var r := Replay(Retained(history, max), last);
      && (r.Err? <==> max >= 1 && last < Dropped(|history|, max) + 1 && history != [])
      && (r.Err? ==> r.error == Expired(last))
      && (r.Ok? && max >= 1 ==> r.value == history[Seen(history, last)..])
      && (max <= 0 ==> r == Ok([]))
  {
    var from := Dropped(|history|, max);
    var events := Retained(history, max);
    if events != [] {
      assert events[0] == history[from];
    }
    if from <= last {
      LaterIsSuffix(history, from, last);
    }
  }

  /** A client is told its position expired although the buffer still holds everything it has not seen, in
      exactly one situation: the oldest retained event is the very next one it needs (or, with nothing dropped
      yet, it names a sequence before the first). */
  lemma SpuriousExpiry(history: seq<Event>, max: int, last: int)
    requires Numbered(history) && max >= 1
    ensures Replay(Retained(history, max), last).Err? && Dropped(|history|, max) <= Seen(history, last)
       <==> history != [] && (last == Dropped(|history|, max) || (last < 0 && Dropped(|history|, max) == 0))
  {
    ResumeExact(history, max, last);
  }

  /** A replay hands over everything unseen or says so, for every client position, exactly when the buffer may
      hold at least one event or there is nothing unseen to lose. */
  lemma NoSilentLoss(history: seq<Event>, max: int, last: int)
    requires Numbered(history)
    ensures (Replay(Retained(history, max), last).Ok? ==>
               Replay(Retained(history, max), last).value == history[Seen(history, last)..])
       <==> (max >= 1 || Seen(history, last) == |history|)
  {
    ResumeExact(history, max, last);
  }
}
