/** The two-tier response handling that the client, task and invoice services
    share. The hosted backend is not modelled: its response envelope is an
    input, and each function here decides what the service returns, what it
    throws and which error notifications it shows. */
module RecordAccess {
  import opened Wrappers
  import opened JsNumbers

  /** One entry of a per-record `errors` array. */
  datatype FieldError = FieldError(fieldLabel: string, message: string)

  /** One entry of `results`: a record that was written (with the stored
      record), or one that was not (with its field errors, when the backend
      sent any, and its optional message). */
  datatype RecordResult<R> =
    | Succeeded(data: R)
    | Failed(errors: seq<FieldError>, message: Option<string>)

  /** The backend's response envelope: top-level `success` and `message`,
      `data` on the read path and `results` on the write and delete paths. */
  datatype Envelope<D, R> = Envelope(
    success: bool,
    message: Option<string>,
    data: Option<D>,
    results: Option<seq<RecordResult<R>>>)

  /** What a service call produces: the error notifications it shows, in
      order, and how it settles. */
  datatype Reply<T> = Reply(notices: seq<string>, outcome: Outcome<T>)

  /** A call of a write or delete service: the payload handed to the backend
      (`None` when local validation threw first) and the reply. */
  datatype Call<P, T> = Call(sent: Option<P>, reply: Reply<T>)

  datatype WriteKind = Create | Update

  /** The text of `new Error(response.message)`: an `undefined` message
      gives `""`. A `null` message, which would give "null", is not modelled. */
  function ErrorText(message: Option<string>): (t: string)
    ensures message.Some? ==> t == message.value
    ensures message.None? ==> t == ""
  {
    message.GetOr("")
  }

  /** The error thrown when a write yields no successful record. */
  function NothingWrittenText(kind: WriteKind): string {
    match kind
    case Create => "No records were created successfully"
    case Update => "No records were updated successfully"
  }

  predicate AnySucceeded<R>(rs: seq<RecordResult<R>>) {
    exists i :: 0 <= i < |rs| && rs[i].Succeeded?
  }

  /** Entry `i` is the first successful entry of `rs`, and it carries `d`. */
  ghost predicate FirstSuccess<R>(rs: seq<RecordResult<R>>, i: int, d: R) {
    0 <= i < |rs| && rs[i] == Succeeded(d) && forall j :: 0 <= j < i ==> rs[j].Failed?
  }

  /** `results.filter(r => r.success).map(r => r.data)`: the stored records
      of the successful entries, in order. */
  function SuccessfulData<R>(rs: seq<RecordResult<R>>): (s: seq<R>)
    ensures |s| <= |rs|
    ensures s == [] <==> !AnySucceeded(rs)
    ensures s != [] ==> exists i :: FirstSuccess(rs, i, s[0])
    ensures forall x :: x in s ==> Succeeded(x) in rs
  {
    if rs == [] then []
    else
      var tail := SuccessfulData(rs[1..]);
      if rs[0].Succeeded? then
        var s := [rs[0].data] + tail;
        assert FirstSuccess(rs, 0, s[0]);
        s
      else
        assert AnySucceeded(rs) ==> AnySucceeded(rs[1..]) by {
          if AnySucceeded(rs) {
            var i :| 0 <= i < |rs| && rs[i].Succeeded?;
            assert rs[1..][i - 1].Succeeded?;
          }
        }
        assert tail != [] ==> exists i :: FirstSuccess(rs, i, tail[0]) by {
          if tail != [] {
            var i :| FirstSuccess(rs[1..], i, tail[0]);
            assert FirstSuccess(rs, i + 1, tail[0]) by {
              assert forall j :: 1 <= j < i + 1 ==> rs[j] == rs[1..][j - 1];
            }
          }
        }
        tail
  }

  /** The notifications one failed entry produces on the write path: one
      "fieldLabel: message" per field error, then its own message when that
      is non-empty. */
  function FailureNotices(errors: seq<FieldError>, message: Option<string>): (ns: seq<string>)
    ensures |ns| == |errors| + (if TruthyText(message) then 1 else 0)
    ensures forall k :: 0 <= k < |errors| ==> ns[k] == errors[k].fieldLabel + ": " + errors[k].message
    ensures TruthyText(message) ==> ns[|errors|] == message.value
  {
    seq(|errors|, k requires 0 <= k < |errors| => errors[k].fieldLabel + ": " + errors[k].message)
      + (if TruthyText(message) then [message.value] else [])
  }

  /** The notifications of the write path: those of every failed entry, in
      the order of `results`; successful entries add none. */
  function WriteNotices<R>(rs: seq<RecordResult<R>>): (ns: seq<string>)
    ensures (forall i :: 0 <= i < |rs| ==> rs[i].Succeeded?) ==> ns == []
  {
    if rs == [] then []
    else
      (match rs[0]
       case Succeeded(_) => []
       case Failed(errors, message) => FailureNotices(errors, message))
      + WriteNotices(rs[1..])
  }

  /** Notification `n` of the delete path comes from entry `i`: a failed
      entry whose message is `n`. */
  ghost predicate DeleteNoticeFrom<R>(rs: seq<RecordResult<R>>, i: int, n: string) {
    0 <= i < |rs| && rs[i].Failed? && rs[i].message == Some(n)
  }

  /** Notification `n` of the delete path is the message of some failed entry. */
  ghost predicate DeleteNoticeOrigin<R>(rs: seq<RecordResult<R>>, n: string) {
    exists i :: DeleteNoticeFrom(rs, i, n)
  }

  /** The notifications of the delete path: only the non-empty messages of
      the failed entries; field errors are not shown there. */
  function DeleteNotices<R>(rs: seq<RecordResult<R>>): (ns: seq<string>)
    ensures |ns| <= |rs|
    ensures (forall i :: 0 <= i < |rs| ==> rs[i].Succeeded?) ==> ns == []
    ensures forall k :: 0 <= k < |ns| ==> ns[k] != ""
    ensures forall k :: 0 <= k < |ns| ==> DeleteNoticeOrigin(rs, ns[k])
  {
    if rs == [] then []
    else
      var head :=
        (match rs[0]
         case Failed(_, message) => if TruthyText(message) then [message.value] else []
         case Succeeded(_) => []);
      var tail := DeleteNotices(rs[1..]);
      DeleteNoticeOriginStep(rs, head, tail);
      head + tail
  }

  /** The origin of the delete notifications carries over from the tail of
      `rs` to `rs` itself, with the head entry's own notification in front. */
  lemma DeleteNoticeOriginStep<R>(rs: seq<RecordResult<R>>, head: seq<string>, tail: seq<string>)
    requires rs != []
    requires forall k :: 0 <= k < |head| ==> DeleteNoticeFrom(rs, 0, head[k])
    requires forall k :: 0 <= k < |tail| ==> DeleteNoticeOrigin(rs[1..], tail[k])
    ensures forall k :: 0 <= k < |head + tail| ==> DeleteNoticeOrigin(rs, (head + tail)[k])
  {
    var ns := head + tail;
    forall k | 0 <= k < |ns|
      ensures DeleteNoticeOrigin(rs, ns[k])
    {
      if k < |head| {
        assert DeleteNoticeFrom(rs, 0, ns[k]);
      } else {
        var i :| DeleteNoticeFrom(rs[1..], i, tail[k - |head|]);
        assert DeleteNoticeFrom(rs, i + 1, ns[k]);
      }
    }
  }

  /** `getAll`: a top-level failure throws the backend's message; otherwise
      the records, or an empty list when `data` is absent. */
  function FetchAll<D, R>(env: Envelope<seq<D>, R>): (o: Outcome<seq<D>>)
    ensures !env.success ==> o == Threw(ErrorText(env.message))
    ensures env.success ==> o.Returned?
    ensures env.success && env.data.None? ==> o.value == []
    ensures env.success && env.data.Some? ==> o.value == env.data.value
  {
    if !env.success then Threw(ErrorText(env.message))
    else Returned(env.data.GetOr([]))
  }

  /** `getById`: a top-level failure throws the backend's message; a
      successful envelope without `data` throws `notFound`. */
  function FetchOne<D, R>(env: Envelope<D, R>, notFound: string): (o: Outcome<D>)
    ensures o.Returned? <==> env.success && env.data.Some?
    ensures o.Returned? ==> o.value == env.data.value
    ensures !env.success ==> o == Threw(ErrorText(env.message))
    ensures env.success && env.data.None? ==> o == Threw(notFound)
  {
    if !env.success then Threw(ErrorText(env.message))
    else if env.data.None? then Threw(notFound)
    else Returned(env.data.value)
  }

  /** `create`/`update`: a top-level failure throws the backend's message
      before `results` is looked at. Otherwise every failed entry is
      reported, and the stored record of the first successful entry is
      returned; with no successful entry, or no `results` at all, the call
      throws even though the envelope reported success. */
  function ClassifyWrite<D, R>(env: Envelope<D, R>, kind: WriteKind): (w: Reply<R>)
    ensures !env.success ==> w == Reply([], Threw(ErrorText(env.message)))
    ensures env.success && env.results.None? ==> w == Reply([], Threw(NothingWrittenText(kind)))
    ensures env.success && env.results.Some? ==> w.notices == WriteNotices(env.results.value)
    ensures w.outcome.Returned? <==> env.success && env.results.Some? && AnySucceeded(env.results.value)
    ensures w.outcome.Returned? ==>
      var rs := env.results.value;
      exists i :: FirstSuccess(rs, i, w.outcome.value)
    ensures env.success && w.outcome.Threw? ==> w.outcome.message == NothingWrittenText(kind)
  {
    if !env.success then Reply([], Threw(ErrorText(env.message)))
    else if env.results.None? then Reply([], Threw(NothingWrittenText(kind)))
    else
      var rs := env.results.value;
      var written := SuccessfulData(rs);
      Reply(WriteNotices(rs), if written != [] then Returned(written[0]) else Threw(NothingWrittenText(kind)))
  }

  /** `delete`: a top-level failure throws the backend's message; otherwise
      the result is true exactly when some entry of `results` succeeded, and
      false when `results` is absent. A partial or total per-record failure
      never throws. */
  function ClassifyDelete<D, R>(env: Envelope<D, R>): (d: Reply<bool>)
    ensures !env.success ==> d == Reply([], Threw(ErrorText(env.message)))
    ensures env.success ==> d.outcome == Returned(env.results.Some? && AnySucceeded(env.results.value))
    ensures env.success && env.results.None? ==> d.notices == []
    ensures env.success && env.results.Some? ==> d.notices == DeleteNotices(env.results.value)
  {
    if !env.success then Reply([], Threw(ErrorText(env.message)))
    else if env.results.None? then Reply([], Returned(false))
    else
      var rs := env.results.value;
      Reply(DeleteNotices(rs), Returned(|SuccessfulData(rs)| > 0))
  }

  /** The notifications of a batch are those of its parts, in order. */
  lemma {:induction false} WriteNoticesAppend<R>(a: seq<RecordResult<R>>, b: seq<RecordResult<R>>)
    ensures WriteNotices(a + b) == WriteNotices(a) + WriteNotices(b)
  {
    if a == [] {
      assert a + b == b;
    } else {
      assert (a + b)[0] == a[0];
      assert (a + b)[1..] == a[1..] + b;
      WriteNoticesAppend(a[1..], b);
    }
  }

  /** A batch in which every record was written shows no notification. */
  lemma {:induction false} AllWrittenNoNotices<R>(rs: seq<RecordResult<R>>)
    requires forall i :: 0 <= i < |rs| ==> rs[i].Succeeded?
    ensures WriteNotices(rs) == [] && DeleteNotices(rs) == []
  {
    if rs != [] {
      AllWrittenNoNotices(rs[1..]);
    }
  }

  /** The delete notifications of a batch are those of its parts, in order. */
  lemma {:induction false} DeleteNoticesAppend<R>(a: seq<RecordResult<R>>, b: seq<RecordResult<R>>)
    ensures DeleteNotices(a + b) == DeleteNotices(a) + DeleteNotices(b)
  {
    if a == [] {
      assert a + b == b;
    } else {
      assert (a + b)[0] == a[0];
      assert (a + b)[1..] == a[1..] + b;
      DeleteNoticesAppend(a[1..], b);
    }
  }

  /** A single-record delete that fails with top-level success (every call
      site sends one id) returns false, after showing the record's message
      when it is non-empty and nothing otherwise; field errors are never
      shown. */
  lemma SingleFailedDelete<D, R>(env: Envelope<D, R>, errors: seq<FieldError>, message: Option<string>)
    requires env.success && env.results == Some([Failed(errors, message)])
    ensures ClassifyDelete(env) == Reply(if TruthyText(message) then [message.value] else [], Returned(false))
  {
    var rs := env.results.value;
    assert !AnySucceeded(rs);
    assert rs[1..] == [];
  }

  /** Every notification of the write path is a field error or a message of
      some failed entry. */
  lemma {:induction false} WriteNoticeOrigin<R>(rs: seq<RecordResult<R>>, n: string)
    requires n in WriteNotices(rs)
    ensures exists i :: 0 <= i < |rs| && rs[i].Failed? && n in FailureNotices(rs[i].errors, rs[i].message)
  {
    var head := match rs[0] case Succeeded(_) => [] case Failed(e, m) => FailureNotices(e, m);
    assert WriteNotices(rs) == head + WriteNotices(rs[1..]);
    if n in head {
      assert rs[0].Failed?;
    } else {
      WriteNoticeOrigin(rs[1..], n);
      var i :| 0 <= i < |rs[1..]| && rs[1..][i].Failed? && n in FailureNotices(rs[1..][i].errors, rs[1..][i].message);
      assert rs[i + 1] == rs[1..][i];
    }
  }

  /** A single-record write that fails with top-level success (every call
      site sends one record) throws, after showing exactly that record's
      field errors and then its message. */
  lemma SingleFailedWrite<D, R>(env: Envelope<D, R>, kind: WriteKind, errors: seq<FieldError>, message: Option<string>)
    requires env.success && env.results == Some([Failed(errors, message)])
    ensures ClassifyWrite(env, kind) == Reply(FailureNotices(errors, message), Threw(NothingWrittenText(kind)))
  {
    var rs := env.results.value;
    assert !AnySucceeded(rs);
    assert rs[1..] == [];
    assert WriteNotices(rs) == FailureNotices(errors, message) + WriteNotices(rs[1..]);
  }
}
