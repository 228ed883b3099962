/** The event logger of pkg/logr/eventr/eventr.go: a logr sink that turns
    log calls into Kubernetes events on one subject object. The events
    recorder is a class holding the events recorded so far; the subject is
    given by its name. */
module Eventr {
  import Meta

  const MaxLoggingLevel: int := 0
  const ReasonLogKey: string := "eventReason"
  const DefaultReason: string := "Info"

  /** A value in a logr key/value list (Go's `any`): a string, a value with
      a String method (fmt.Stringer), or any other value. Two values are
      equal when they are of the same kind and carry the same data. */
  datatype Any = AString(s: string) | AStringer(data: int, text: string) | AOther(data: int)

  /** An event as handed to EventRecorder.Eventf: the event type, reason,
      action and note. */
  datatype Event = Event(subject: string, eventType: string, reason: string, action: string, note: string)

  /** The events API recorder: records the events it is given, in order. */
  class Recorder {
    var events: seq<Event>

    constructor ()
      ensures events == []
    {
      events := [];
    }

    method Eventf(e: Event)
      modifies this
      ensures events == old(events) + [e]
    {
      events := events + [e];
    }
  }

  /** An eventr sink: its recorder, its subject, and the key/value pairs
      added with WithValues. */
  datatype Sink = Sink(recorder: Recorder, subject: string, keysAndValues: seq<Any>)

  /** NewEventr */
  function NewEventr(recorder: Recorder, subject: string): (s: Sink)
    ensures s.recorder == recorder && s.subject == subject && s.keysAndValues == []
  {
    Sink(recorder, subject, [])
  }

  /** slices.Index: the first position holding `key`, or -1. */
  function Index(kvs: seq<Any>, key: Any): (i: int)
    ensures -1 <= i < |kvs|
    ensures 0 <= i ==> kvs[i] == key
    ensures forall k :: 0 <= k < |kvs| && (i < 0 || k < i) ==> kvs[k] != key
  {
    if kvs == [] then -1
    else if kvs[0] == key then 0
    else
      var i := Index(kvs[1..], key);
      assert forall k :: 1 <= k < |kvs| ==> kvs[k] == kvs[1..][k - 1];
      if i < 0 then -1 else i + 1
  }

  /** The text a value gives: a string as it is, a Stringer its String(),
      anything else nothing. */
  function Text(v: Any): Meta.Option<string>
  {
    match v
    case AString(s) => Meta.Some(s)
    case AStringer(_, text) => Meta.Some(text)
    case AOther(_) => Meta.None
  }

  /** GetValueForKey: the text of the element following the first
      occurrence of `key`, or `defVal` when `key` does not occur, occurs
      only last, or is followed by a value that is neither a string nor a
      Stringer. */
  function GetValueForKey(kvs: seq<Any>, key: Any, defVal: string): (value: string)
    ensures Index(kvs, key) < 0 ==> value == defVal
    ensures Index(kvs, key) == |kvs| - 1 ==> value == defVal
  {
    var idx := Index(kvs, key);
    if idx > -1 && idx + 1 < |kvs| then
      var t := Text(kvs[idx + 1]);
      if t.Some? then t.value else defVal
    else defVal
  }

  /** The lookup in full: the value is taken from the element after the
      first occurrence of the key, whatever comes later in the list. */
  lemma GetValueForKeySpec(kvs: seq<Any>, key: Any, defVal: string, i: int)
    requires 0 <= i < |kvs| - 1 && kvs[i] == key
    requires forall k :: 0 <= k < i ==> kvs[k] != key
    ensures GetValueForKey(kvs, key, defVal) ==
      match kvs[i + 1]
      case AString(s) => s
      case AStringer(_, text) => text
      case AOther(_) => defVal
  {
    assert Index(kvs, key) == i;
  }

  /** The reason of an event logged with `kvs` on `sink`: the call's own
      eventReason, else the one added with WithValues, else "Info". */
  function Reason(sink: Sink, kvs: seq<Any>): string
  {
    GetValueForKey(kvs, AString(ReasonLogKey), GetValueForKey(sink.keysAndValues, AString(ReasonLogKey), DefaultReason))
  }

  /** The reason falls back from the call's key/value pairs to the sink's
      and then to "Info". */
  lemma ReasonPrecedence(sink: Sink, kvs: seq<Any>)
    ensures Index(kvs, AString(ReasonLogKey)) < 0 && Index(sink.keysAndValues, AString(ReasonLogKey)) < 0 ==>
      Reason(sink, kvs) == DefaultReason
    ensures Index(kvs, AString(ReasonLogKey)) < 0 ==>
      Reason(sink, kvs) == GetValueForKey(sink.keysAndValues, AString(ReasonLogKey), DefaultReason)
    ensures var i := Index(kvs, AString(ReasonLogKey));
      0 <= i < |kvs| - 1 && kvs[i + 1].AString? ==> Reason(sink, kvs) == kvs[i + 1].s
  {
  }

  /** Enabled: only level 0 and below are reported. */
  function Enabled(level: int): (b: bool)
    ensures b <==> level <= MaxLoggingLevel
  {
    level <= MaxLoggingLevel
  }

  /** The sink's Info: a "Normal" event whose note is the message. Go hands
      the message to Eventf as its format string; the two agree for a
      message without '%' verbs, which is all the model covers. */
  method Info(sink: Sink, level: int, msg: string, kvs: seq<Any>)
    modifies sink.recorder
    ensures sink.recorder.events == old(sink.recorder.events) + [InfoEvent(sink, msg, kvs)]
  {
    var reason := Reason(sink, kvs);
    sink.recorder.Eventf(Event(sink.subject, "Normal", reason, "Info", msg));
  }

  /** The event Info records. */
  function InfoEvent(sink: Sink, msg: string, kvs: seq<Any>): (e: Event)
    ensures e.eventType == "Normal" && e.note == msg && e.subject == sink.subject && e.reason == Reason(sink, kvs)
  {
    Event(sink.subject, "Normal", Reason(sink, kvs), "Info", msg)
  }

  /** The sink's Error: a "Warning" event whose note is the message
      followed by ": " and the error's text. */
  method Error(sink: Sink, err: string, msg: string, kvs: seq<Any>)
    modifies sink.recorder
    ensures sink.recorder.events == old(sink.recorder.events) + [ErrorEvent(sink, err, msg, kvs)]
  {
    var reason := Reason(sink, kvs);
    sink.recorder.Eventf(Event(sink.subject, "Warning", reason, "Info", msg + ": " + err));
  }

  /** The event Error records. */
  function ErrorEvent(sink: Sink, err: string, msg: string, kvs: seq<Any>): (e: Event)
    ensures e.eventType == "Warning" && e.note == msg + ": " + err && e.subject == sink.subject
    ensures e.reason == Reason(sink, kvs)
  {
    Event(sink.subject, "Warning", Reason(sink, kvs), "Info", msg + ": " + err)
  }

  /** WithValues: a sink on the same recorder and subject whose pairs are
      the new ones followed by the old. */
  function WithValues(sink: Sink, kvs: seq<Any>): (s: Sink)
    ensures s.recorder == sink.recorder && s.subject == sink.subject
    ensures |s.keysAndValues| == |kvs| + |sink.keysAndValues|
    ensures s.keysAndValues[..|kvs|] == kvs && s.keysAndValues[|kvs|..] == sink.keysAndValues
  {
    Sink(sink.recorder, sink.subject, kvs + sink.keysAndValues)
  }

  /** WithName: the sink itself. */
  function WithName(sink: Sink, name: string): (s: Sink)
    ensures s == sink
  {
    sink
  }

  /** A reason given with WithValues holds for every later call that gives
      none, and values added later win over earlier ones. */
  lemma {:induction false} WithValuesReason(sink: Sink, kvs: seq<Any>, call: seq<Any>)
    requires Index(call, AString(ReasonLogKey)) < 0
    ensures Index(kvs, AString(ReasonLogKey)) < 0 ==> Reason(WithValues(sink, kvs), call) == Reason(sink, call)
    ensures var i := Index(kvs, AString(ReasonLogKey));
      0 <= i < |kvs| - 1 ==> Reason(WithValues(sink, kvs), call) == Reason(Sink(sink.recorder, sink.subject, kvs), call)
  {
    var key := AString(ReasonLogKey);
    var all := kvs + sink.keysAndValues;
    var i := Index(kvs, key);
    if i < 0 {
      var j := Index(sink.keysAndValues, key);
      assert forall k :: 0 <= k < |kvs| ==> all[k] == kvs[k];
      if 0 <= j {
        assert all[|kvs| + j] == key;
        assert Index(all, key) == |kvs| + j;
        if j + 1 < |sink.keysAndValues| {
          assert all[|kvs| + j + 1] == sink.keysAndValues[j + 1];
        }
      } else {
        assert forall k :: 0 <= k < |sink.keysAndValues| ==> all[|kvs| + k] == sink.keysAndValues[k];
        assert Index(all, key) < 0;
      }
    } else {
      assert forall k :: 0 <= k < |kvs| ==> all[k] == kvs[k];
      assert Index(all, key) == i;
    }
  }

  /** A reason key given alone to WithValues, with no value of its own, is
      put before the sink's earlier pairs, so the first of those becomes its
      value: a string or a Stringer gives its text, any other value (or no
      earlier pair at all) gives "Info", hiding any reason the sink had. */
  lemma WithValuesDanglingKey(sink: Sink, call: seq<Any>)
    requires Index(call, AString(ReasonLogKey)) < 0
    ensures |sink.keysAndValues| == 0 ==> Reason(WithValues(sink, [AString(ReasonLogKey)]), call) == DefaultReason
    ensures |sink.keysAndValues| > 0 ==>
      var t := Text(sink.keysAndValues[0]);
      Reason(WithValues(sink, [AString(ReasonLogKey)]), call) == if t.Some? then t.value else DefaultReason
  {
    assert Index([AString(ReasonLogKey)] + sink.keysAndValues, AString(ReasonLogKey)) == 0;
  }

  /** The dangling key on a sink that already holds a pair: its key becomes the reason. */
  lemma DanglingKeyExample(recorder: Recorder)
    ensures var sink := WithValues(NewEventr(recorder, "cm1"), [AString("earlier"), AString("pair")]);
      Reason(WithValues(sink, [AString(ReasonLogKey)]), []) == "earlier"
  {
    var sink := WithValues(NewEventr(recorder, "cm1"), [AString("earlier"), AString("pair")]);
    WithValuesDanglingKey(sink, []);
  }

  /** logr's Logger.V(level).Info: the sink's Info when the level is enabled,
      nothing otherwise. */
  method LoggerInfo(sink: Sink, level: int, msg: string, kvs: seq<Any>)
    modifies sink.recorder
    ensures Enabled(level) ==> sink.recorder.events == old(sink.recorder.events) + [InfoEvent(sink, msg, kvs)]
    ensures !Enabled(level) ==> sink.recorder.events == old(sink.recorder.events)
  {
    if Enabled(level) {
      Info(sink, level, msg, kvs);
    }
  }

  /** The behaviour the package promises for a fresh logger on a ConfigMap
      named cm1: plain Info and Error events, a reason given at the call,
      a reason given with WithValues, and nothing at level 1. */
  method Examples()
  {
    var recorder := new Recorder();
    var logger := NewEventr(recorder, "cm1");
    LoggerInfo(logger, 0, "Something happened", []);
    assert recorder.events[0] == Event("cm1", "Normal", "Info", "Info", "Something happened");
    Error(logger, "some error", "error happened", []);
    assert recorder.events[1] == Event("cm1", "Warning", "Info", "Info", "error happened: some error");
    var custom := [AString(ReasonLogKey), AString("Something")];
    assert Index(custom, AString(ReasonLogKey)) == 0;
    LoggerInfo(logger, 0, "Something happened", custom);
    assert recorder.events[2] == Event("cm1", "Normal", "Something", "Info", "Something happened");
    Error(logger, "some error", "error happened", custom);
    assert recorder.events[3] == Event("cm1", "Warning", "Something", "Info", "error happened: some error");
    var logWReason := WithValues(logger, [AString(ReasonLogKey), AString("EmbeddedReason")]);
    assert Index(logWReason.keysAndValues, AString(ReasonLogKey)) == 0;
    LoggerInfo(logWReason, 0, "Something happened", []);
    assert recorder.events[4] == Event("cm1", "Normal", "EmbeddedReason", "Info", "Something happened");
    Error(logWReason, "some error", "error happened", []);
    assert recorder.events[5] == Event("cm1", "Warning", "EmbeddedReason", "Info", "error happened: some error");
    LoggerInfo(logger, 1, "not important", []);
    assert |recorder.events| == 6;
  }
}
