/** The request bounds declared for the recording endpoints. */
module RecordingSchema {
  import opened Js
  import opened Text
  import opened RecordingService

  predicate IsHexDigit(c: char) {
    ('0' <= c <= '9') || ('a' <= c <= 'f') || ('A' <= c <= 'F')
  }

  /** Positions of the four hyphens in the 8-4-4-4-12 form. */
  predicate IsHyphenPosition(i: int) {
    i == 8 || i == 13 || i == 18 || i == 23
  }

  /** A UUID string: 32 hexadecimal digits in groups of 8-4-4-4-12, any letter case. */
  predicate IsUuid(s: string) {
    |s| == 36 && forall i :: 0 <= i < 36 ==> if IsHyphenPosition(i) then s[i] == '-' else IsHexDigit(s[i])
  }

  /** `duration`: an integer number in [1, 300]. */
  predicate ValidDuration(d: JsNumber) {
    IsInteger(d) && 1.0 <= d.value <= 300.0
  }

  /** StartRecordingSchema. */
  predicate ValidStartRecording(r: Request) {
    IsUuid(r.cameraId) && IsUuid(r.userId) && ValidDuration(r.duration)
  }

  /** StartMultipleRecordingsSchema: between 1 and 10 recordings, each valid on its own. */
  predicate ValidStartMultiple(rs: seq<Request>) {
    1 <= |rs| <= 10 && forall i :: 0 <= i < |rs| ==> ValidStartRecording(rs[i])
  }

  /** Every duration the schema admits also passes the service's range check, while the service admits more (fractions, NaN). */
  lemma SchemaWithinService(d: JsNumber)
    ensures ValidDuration(d) ==> !DurationRejected(d)
    ensures !ValidDuration(Num(1.5)) && !DurationRejected(Num(1.5))
    ensures !ValidDuration(NaN) && !DurationRejected(NaN)
  {
    assert (1.5).Floor == 1;
  }

  /** A valid batch request passes the service's duration check on every element. */
  lemma ValidBatchPassesService(rs: seq<Request>)
    requires ValidStartMultiple(rs)
    ensures forall i :: 0 <= i < |rs| ==> !DurationRejected(rs[i].duration)
  {
  }
}
