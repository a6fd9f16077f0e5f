/** The HTTP responses of the recording endpoints, computed from the service's results. */
module RecordingController {
  import opened Wrappers
  import opened Text
  import opened RecordingService

  datatype Body =
    | RecordBody(message: string, record: Record)
    | ErrorBody(error: string)
    | BatchBody(message: string, successful: seq<Record>, failed: seq<string>)
    | StatusBody(message: string, record: Record, status: string)

  datatype Response = Response(status: nat, body: Body)

  const StartFailedDefault: string := "Erro ao iniciar gravação"
  const BatchFailedDefault: string := "Erro ao iniciar gravações"

  /** `error.message || fallback`. */
  function MessageOr(message: string, fallback: string): string {
    if message != "" then message else fallback
  }

  /** startRecording: 201 with the record, or 400 with the error's message. */
  function StartRecording(r: Result<Record>): (resp: Response)
    ensures resp.status == 201 <==> r.Ok?
    ensures resp.status == 201 || resp.status == 400
    ensures r.Ok? ==> resp.body.RecordBody? && resp.body.record == r.value
    ensures r.Err? ==> resp.body == ErrorBody(MessageOr(r.message, StartFailedDefault)) && resp.body.error != ""
  {
    match r
    case Ok(rec) => Response(201, RecordBody("Gravação concluída com sucesso", rec))
    case Err(m) => Response(400, ErrorBody(MessageOr(m, StartFailedDefault)))
  }

  /** `results.filter(fulfilled).map(value)`. */
  function Successful(rs: seq<Settled>): seq<Record>
    decreases |rs|
  {
    if |rs| == 0 then []
    else (if rs[0].Fulfilled? then [rs[0].value] else []) + Successful(rs[1..])
  }

  /** `results.filter(rejected).map(reason.message)`. */
  function Failed(rs: seq<Settled>): seq<string>
    decreases |rs|
  {
    if |rs| == 0 then []
    else (if rs[0].RejectedWith? then [rs[0].reason] else []) + Failed(rs[1..])
  }

  /** Both lists keep input order: they distribute over concatenation. */
  lemma {:induction false} PartitionConcat(a: seq<Settled>, b: seq<Settled>)
    ensures Successful(a + b) == Successful(a) + Successful(b)
    ensures Failed(a + b) == Failed(a) + Failed(b)
    decreases |a|
  {
    if |a| == 0 {
      assert a + b == b;
    } else {
      assert (a + b)[0] == a[0];
      assert (a + b)[1..] == a[1..] + b;
      PartitionConcat(a[1..], b);
    }
  }

  /** Every settled result lands in exactly one list, so the counts add up to the batch size. */
  lemma {:induction false} PartitionCounts(rs: seq<Settled>)
    ensures |Successful(rs)| + |Failed(rs)| == |rs|
    decreases |rs|
  {
    if |rs| > 0 {
      PartitionCounts(rs[1..]);
    }
  }

  /** A record is listed as successful exactly when some result fulfilled with it; likewise for failures. */
  lemma {:induction false} PartitionMembers(rs: seq<Settled>)
    ensures forall r :: r in Successful(rs) <==> Fulfilled(r) in rs
    ensures forall m :: m in Failed(rs) <==> RejectedWith(m) in rs
    decreases |rs|
  {
    if |rs| > 0 {
      PartitionMembers(rs[1..]);
      assert rs == [rs[0]] + rs[1..];
    }
  }

  /** `${successful.length} gravação(ões) concluída(s), ${failed.length} falha(s)`. */
  function BatchMessage(ok: nat, failed: nat): string {
    NatToString(ok) + " gravação(ões) concluída(s), " + NatToString(failed) + " falha(s)"
  }

  lemma {:induction false} DigitPrefixUnique(a: string, b: string, x: string, y: string)
    requires AllDigits(a) && AllDigits(b)
    requires |x| > 0 && !('0' <= x[0] <= '9') && |y| > 0 && !('0' <= y[0] <= '9')
    requires a + x == b + y
    ensures a == b && x == y
    decreases |a|
  {
    if |a| == 0 && |b| == 0 {
      assert a + x == x && b + y == y;
    } else if |a| > 0 && |b| > 0 {
      assert (a + x)[0] == a[0] && (b + y)[0] == b[0];
      assert a[1..] + x == (a + x)[1..] && b[1..] + y == (b + y)[1..];
      DigitPrefixUnique(a[1..], b[1..], x, y);
      assert a == [a[0]] + a[1..] && b == [b[0]] + b[1..];
    } else {
      assert false;
    }
  }

  lemma PrefixCancel(p: string, x: string, y: string)
    requires p + x == p + y
    ensures x == y
  {
    assert x == (p + x)[|p|..];
    assert y == (p + y)[|p|..];
  }

  const BatchMiddle: string := " gravação(ões) concluída(s), "
  const BatchTail: string := " falha(s)"

  lemma BatchMessageShape(ok: nat, failed: nat)
    ensures BatchMessage(ok, failed) == NatToString(ok) + (BatchMiddle + (NatToString(failed) + BatchTail))
    ensures (BatchMiddle + (NatToString(failed) + BatchTail))[0] == ' '
  {
  }

  /** The message reports exactly the two counts: different counts give different messages. */
  lemma BatchMessageInjective(s1: nat, f1: nat, s2: nat, f2: nat)
    requires BatchMessage(s1, f1) == BatchMessage(s2, f2)
    ensures s1 == s2 && f1 == f2
  {
    BatchMessageShape(s1, f1);
    BatchMessageShape(s2, f2);
    var x1 := NatToString(f1) + BatchTail;
    var x2 := NatToString(f2) + BatchTail;
    DigitPrefixUnique(NatToString(s1), NatToString(s2), BatchMiddle + x1, BatchMiddle + x2);
    PrefixCancel(BatchMiddle, x1, x2);
    assert BatchTail[0] == ' ';
    DigitPrefixUnique(NatToString(f1), NatToString(f2), BatchTail, BatchTail);
    NatToStringInjective(s1, s2);
    NatToStringInjective(f1, f2);
  }

  /**
   * startMultipleRecordings: 201 with the partition whenever recordMultipleCameras returns,
   * even if every item failed; 400 only when it throws.
   */
  function StartMultipleRecordings(batch: Result<seq<Settled>>): (resp: Response)
    ensures resp.status == 201 <==> batch.Ok?
    ensures batch.Ok? ==> resp.body == BatchBody(BatchMessage(|Successful(batch.value)|, |Failed(batch.value)|),
                                                 Successful(batch.value), Failed(batch.value))
    ensures batch.Err? ==> resp == Response(400, ErrorBody(MessageOr(batch.message, BatchFailedDefault)))
  {
    match batch
    case Ok(rs) =>
      Response(201, BatchBody(BatchMessage(|Successful(rs)|, |Failed(rs)|), Successful(rs), Failed(rs)))
    case Err(m) => Response(400, ErrorBody(MessageOr(m, BatchFailedDefault)))
  }

  /** A batch in which every recording failed still answers 201, listing every failure in order. */
  lemma AllFailedStillCreated(rs: seq<Settled>)
    requires forall i :: 0 <= i < |rs| ==> rs[i].RejectedWith?
    ensures StartMultipleRecordings(Ok(rs)).status == 201
    ensures Successful(rs) == [] && |Failed(rs)| == |rs|
  {
    PartitionCounts(rs);
    NoneFulfilled(rs);
  }

  lemma {:induction false} NoneFulfilled(rs: seq<Settled>)
    requires forall i :: 0 <= i < |rs| ==> rs[i].RejectedWith?
    ensures Successful(rs) == []
    decreases |rs|
  {
    if |rs| > 0 {
      NoneFulfilled(rs[1..]);
    }
  }

  /** What RecordRepository.findById does for the status query. */
  datatype RecordLookup = LookupThrew | Missing | Present(record: Record)

  /** getRecordingStatus: 404 when missing, 500 when the lookup throws, otherwise always 'completed'. */
  function GetRecordingStatus(l: RecordLookup): (resp: Response)
    ensures resp.status == 404 <==> l.Missing?
    ensures resp.status == 500 <==> l.LookupThrew?
    ensures l.Present? ==> resp.status == 200 && resp.body == StatusBody("Status da gravação", l.record, "completed")
  {
    match l
    case LookupThrew => Response(500, ErrorBody("Erro interno do servidor"))
    case Missing => Response(404, ErrorBody("Gravação não encontrada"))
    case Present(r) => Response(200, StatusBody("Status da gravação", r, "completed"))
  }
}
