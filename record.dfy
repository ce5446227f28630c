/**
 * The recording sheet (app/record.tsx): a seconds counter capped at one minute that submits the
 * recording when it reaches the cap, its `m:ss` display, and the upload step of "Done".
 */
module RecordScreen {
  import opened Js

  const MAX_RECORDING_TIME: nat := 60
  const UPLOAD_FAILED_TITLE: string := "Upload Failed"
  const UPLOAD_FAILED_MESSAGE: string := "Failed to upload audio note"

  // ---------------------------------------------------------------------------------------
  // The timer display

  function DigitChar(d: nat): char
    requires d < 10
  {
    ('0' as int + d) as char
  }

  function DigitValue(c: char): int {
    c as int - '0' as int
  }

  predicate IsDigit(c: char) {
    '0' <= c <= '9'
  }

  /** A non-negative integer in decimal, as a template literal prints it below 10^21. */
  function Decimal(n: nat): (r: string)
    ensures |r| >= 1
    ensures forall i :: 0 <= i < |r| ==> IsDigit(r[i])
    ensures n < 10 <==> |r| == 1
    ensures 10 <= n < 100 ==> |r| == 2
    ensures |r| > 1 ==> r[0] != '0'
  {
    if n < 10 then [DigitChar(n)] else Decimal(n / 10) + [DigitChar(n % 10)]
  }

  /** The number a string of decimal digits denotes (leading zeros allowed). */
  function DecimalValue(s: string): int {
    if s == [] then 0 else DecimalValue(s[..|s| - 1]) * 10 + DigitValue(s[|s| - 1])
  }

  /** Reading the printed digits back gives the number. */
  lemma {:induction false} DecimalRoundTrip(n: nat)
    ensures DecimalValue(Decimal(n)) == n
  {
    if n >= 10 {
      DecimalRoundTrip(n / 10);
      var r := Decimal(n);
      assert r[..|r| - 1] == Decimal(n / 10);
    }
  }

  /** `formatTime`: minutes, a colon, then the seconds zero-padded to two digits. */
  function FormatTime(seconds: nat): string {
    var mins := seconds / 60;
    var secs := seconds % 60;
    Decimal(mins) + ":" + (if secs < 10 then "0" else "") + Decimal(secs)
  }

  /**
   * The last three characters are a colon and exactly two digits; the digits before the colon
   * read back as the minutes, the two after it as the seconds, so the text denotes `seconds`.
   */
  lemma FormatTimeReadsBack(seconds: nat)
    ensures var t := FormatTime(seconds); var k := |t| - 3;
      && k >= 1 && t[..k] == Decimal(seconds / 60) && t[k] == ':'
      && IsDigit(t[k + 1]) && IsDigit(t[k + 2])
      && DecimalValue(t[..k]) == seconds / 60
      && DecimalValue(t[k + 1..]) == seconds % 60
      && DecimalValue(t[..k]) * 60 + DecimalValue(t[k + 1..]) == seconds
  {
    var mins, secs := seconds / 60, seconds % 60;
    var t := FormatTime(seconds);
    var m := Decimal(mins);
    var pad := if secs < 10 then "0" else "";
    var d := Decimal(secs);
    assert t == m + ":" + pad + d;
    var tail := pad + d;
    assert |tail| == 2;
    var k := |t| - 3;
    assert k == |m|;
    assert t[..k] == m;
    assert t[k + 1..] == tail;
    DecimalRoundTrip(mins);
    DecimalRoundTrip(secs);
    if secs < 10 {
      assert tail[..1] == "0";
      assert DecimalValue(tail) == DecimalValue("0") * 10 + DigitValue(tail[1]);
      assert tail[1..] == d;
      assert DecimalValue(d) == DecimalValue([]) * 10 + DigitValue(d[0]);
    } else {
      assert tail == d;
    }
  }

  /** Five seconds show as "0:05" and a full minute as "1:00". */
  lemma FormatTimeExamples()
    ensures FormatTime(5) == "0:05"
    ensures FormatTime(60) == "1:00"
  {
  }

  // ---------------------------------------------------------------------------------------
  // The counter

  /** One timer tick: the new count, and whether the tick calls `handleDone`. */
  function NextTime(prev: nat): (nat, bool) {
    var newTime := prev + 1;
    if newTime >= MAX_RECORDING_TIME then (MAX_RECORDING_TIME, true) else (newTime, false)
  }

  /** The count after `ticks` ticks from `start`. */
  function TimeAfter(start: nat, ticks: nat): nat {
    if ticks == 0 then start else NextTime(TimeAfter(start, ticks - 1)).0
  }

  /** A tick never takes the count past the cap, and submits exactly when it reaches the cap. */
  lemma NextTimeCapped(prev: nat)
    ensures NextTime(prev).0 <= MAX_RECORDING_TIME
    ensures NextTime(prev).1 <==> prev + 1 >= MAX_RECORDING_TIME
    ensures prev + 1 < MAX_RECORDING_TIME ==> NextTime(prev).0 == prev + 1
  {
  }

  /** From a count within the cap, `n` ticks add `n` seconds, stopping at the cap. */
  lemma {:induction false} TimeAfterTicks(start: nat, ticks: nat)
    requires start <= MAX_RECORDING_TIME
    ensures TimeAfter(start, ticks) == if start + ticks <= MAX_RECORDING_TIME then start + ticks else MAX_RECORDING_TIME
  {
    if ticks > 0 {
      TimeAfterTicks(start, ticks - 1);
    }
  }

  // ---------------------------------------------------------------------------------------
  // The sheet's state

  /** How an awaited step ended: normally, or by throwing an error with this message. */
  datatype Step = Ok | Threw(message: Field)

  datatype Alert = Alert(title: string, message: string)

  /** What `handleDone` did besides updating `uploading`. */
  datatype DoneOutcome = DoneOutcome(uploadDispatched: bool, navigatedBack: bool, alert: Option<Alert>)

  class Recorder {
    var recordingTime: nat
    var uploading: bool

    constructor ()
      ensures recordingTime == 0 && !uploading
    {
      recordingTime, uploading := 0, false;
    }

    /** Starting to record (and the recorder reporting that it records) resets the count. */
    method StartRecording()
      modifies this
      ensures recordingTime == 0 && uploading == old(uploading)
    {
      recordingTime := 0;
    }

    /** One second of the interval; `submit` says whether the tick calls `handleDone`. */
    method Tick() returns (submit: bool)
      modifies this
      ensures (recordingTime, submit) == NextTime(old(recordingTime))
      ensures recordingTime <= MAX_RECORDING_TIME
      ensures uploading == old(uploading)
    {
      var (newTime, done) := NextTime(recordingTime);
      recordingTime, submit := newTime, done;
    }

    /**
     * "Done": stop the recorder (`stop`), read its file uri (`uri`), upload it if there is one
     * (`upload`), and close the sheet; an error from either awaited step shows an alert and
     * clears `uploading` instead.
     */
    method HandleDone(stop: Step, uri: Field, upload: Step) returns (outcome: DoneOutcome)
      modifies this
      ensures outcome.uploadDispatched <==> stop.Ok? && Truthy(uri)
      ensures outcome.alert.None? <==> stop.Ok? && (!Truthy(uri) || upload.Ok?)
      ensures outcome.navigatedBack <==> outcome.alert.None?
      ensures uploading <==> outcome.alert.None?
      ensures stop.Threw? ==> outcome.alert == Some(Alert(UPLOAD_FAILED_TITLE, OrDefault(stop.message, UPLOAD_FAILED_MESSAGE)))
      ensures stop.Ok? && Truthy(uri) && upload.Threw? ==>
        outcome.alert == Some(Alert(UPLOAD_FAILED_TITLE, OrDefault(upload.message, UPLOAD_FAILED_MESSAGE)))
      ensures recordingTime == old(recordingTime)
    {
      uploading := true;
      var failure: Option<Field> := None;
      var dispatched := false;
      if stop.Threw? {
        failure := Some(stop.message);
      } else if Truthy(uri) {
        dispatched := true;
        if upload.Threw? {
          failure := Some(upload.message);
        }
      }
      if failure.Some? {
        uploading := false;
        outcome := DoneOutcome(dispatched, false, Some(Alert(UPLOAD_FAILED_TITLE, OrDefault(failure.value, UPLOAD_FAILED_MESSAGE))));
      } else {
        outcome := DoneOutcome(dispatched, true, None);
      }
    }
  }

  /** Recording for longer than a minute: the count stops at 60 and the last tick submits. */
  method RecordPastTheCap(extra: nat) returns (time: nat, submitted: bool)
    ensures time == MAX_RECORDING_TIME && submitted
  {
    var recorder := new Recorder();
    recorder.StartRecording();
    var i := 0;
    submitted := false;
    while i < MAX_RECORDING_TIME + extra
      invariant 0 <= i <= MAX_RECORDING_TIME + extra
      invariant recorder.recordingTime == if i <= MAX_RECORDING_TIME then i else MAX_RECORDING_TIME
      invariant submitted <==> i >= MAX_RECORDING_TIME
    {
      submitted := recorder.Tick();
      i := i + 1;
    }
    time := recorder.recordingTime;
  }
}
