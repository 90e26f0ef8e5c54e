// A delivery agent reuses one DSN_BUF across attempts, calling one dsb_*
// operation per outcome. This module describes such a sequence of calls
// and proves what the buffer holds after it: the field groups stay
// consistent, the reason is the last one composed, and the outcome does not
// depend on what the buffer held before (apart from the reason, which only
// dsb_formal and dsb_status carry over).

module DsnTraces {
  import opened DsnRecord

  /** One call of an update operation, with its arguments. */
  datatype Op =
    | UpdateOp(status: CString, action: Option<CString>, mtype: Option<CString>, mname: CString,
               dtype: Option<CString>, dcode: Int32, dtext: CString, reason: CString)
    | SimpleOp(status: CString, reason: CString)
    | UnixOp(status: CString, dcode: Int32, dtext: CString, reason: CString)
    | SmtpOp(status: CString, dcode: Int32, dtext: CString, reason: CString)
    | FormalOp(status: CString, action: Option<CString>, mtype: Option<CString>, mname: CString,
               dtype: Option<CString>, dcode: Int32, dtext: CString)
    | StatusOp(status: CString)
    | ResetOp

  /** The reason text a call composes, or None for the calls that keep the old one. */
  function Composed(op: Op): Option<CString>
  {
    match op
    case UpdateOp(_, _, _, _, _, _, _, reason) => Some(reason)
    case SimpleOp(_, reason) => Some(reason)
    case UnixOp(_, _, _, reason) => Some(reason)
    case SmtpOp(_, _, _, reason) => Some(reason)
    case FormalOp(_, _, _, _, _, _, _) => None
    case StatusOp(_) => None
    case ResetOp => var truncated: CString := ""; Some(truncated)
  }

  /** The call passes null or a real token for each type it takes. */
  predicate TokensOk(op: Op)
  {
    (op.UpdateOp? || op.FormalOp?) ==> TokenOk(op.mtype) && TokenOk(op.dtype)
  }

  /**
   * The buffer after one call. The reason is the composed one, or the old
   * one for dsb_formal and dsb_status; a call with proper tokens leaves the
   * field groups consistent whatever the buffer held before.
   */
  function Apply(b: Record, op: Op): (r: Record)
    ensures r.reason == (if Composed(op).Some? then Composed(op).value else b.reason)
    ensures TokensOk(op) ==> WellFormed(r)
  {
    match op
    case UpdateOp(status, action, mtype, mname, dtype, dcode, dtext, reason) =>
      Update(b, status, action, mtype, mname, dtype, dcode, dtext, reason)
    case SimpleOp(status, reason) => Simple(b, status, reason)
    case UnixOp(status, dcode, dtext, reason) => Unix(b, status, dcode, dtext, reason)
    case SmtpOp(status, dcode, dtext, reason) => Smtp(b, status, dcode, dtext, reason)
    case FormalOp(status, action, mtype, mname, dtype, dcode, dtext) =>
      Formal(b, status, action, mtype, mname, dtype, dcode, dtext)
    case StatusOp(status) => Status(b, status)
    case ResetOp => Reset(b)
  }

  /** The buffer after a sequence of calls, first call first. */
  function Run(b: Record, ops: seq<Op>): Record
    decreases |ops|
  {
    if ops == [] then b else Run(Apply(b, ops[0]), ops[1..])
  }

  /**
   * Reference definition of the reason after a sequence of calls: the text
   * composed by the last call that composes one, else the initial reason.
   */
  function LastReason(init: CString, ops: seq<Op>): CString
    decreases |ops|
  {
    if ops == [] then init
    else match Composed(ops[|ops| - 1])
      case Some(t) => t
      case None => LastReason(init, ops[..|ops| - 1])
  }

  /** Some call of the sequence composes a reason. */
  predicate ComposesReason(ops: seq<Op>)
  {
    exists i :: 0 <= i < |ops| && Composed(ops[i]).Some?
  }

  /** Running a sequence and then one more call is running the longer sequence. */
  lemma {:induction false} RunSnoc(b: Record, ops: seq<Op>, op: Op)
    ensures Run(b, ops + [op]) == Apply(Run(b, ops), op)
    decreases |ops|
  {
    if ops == [] {
      assert [op][1..] == [];
    } else {
      assert (ops + [op])[1..] == ops[1..] + [op];
      RunSnoc(Apply(b, ops[0]), ops[1..], op);
    }
  }

  /**
   * The buffer never keeps a stale reason: after any sequence of calls it
   * holds the text of the last call that composed one.
   */
  lemma {:induction false} RunReason(b: Record, ops: seq<Op>)
    ensures Run(b, ops).reason == LastReason(b.reason, ops)
    decreases |ops|
  {
    if ops != [] {
      var init, last := ops[..|ops| - 1], ops[|ops| - 1];
      assert ops == init + [last];
      RunSnoc(b, init, last);
      RunReason(b, init);
    }
  }

  /**
   * If every call passes proper tokens, the remote-MTA and diagnostic groups
   * are consistent after the sequence, provided the buffer started
   * consistent or at least one call was made.
   */
  lemma {:induction false} RunWellFormed(b: Record, ops: seq<Op>)
    requires forall i :: 0 <= i < |ops| ==> TokensOk(ops[i])
    requires WellFormed(b) || ops != []
    ensures WellFormed(Run(b, ops))
    decreases |ops|
  {
    if ops != [] {
      assert TokensOk(ops[0]);
      assert forall i :: 0 <= i < |ops[1..]| ==> ops[1..][i] == ops[i + 1];
      RunWellFormed(Apply(b, ops[0]), ops[1..]);
    }
  }

  /**
   * A buffer's history does not leak into the outcome of a non-empty
   * sequence of calls: two buffers end up identical when they held the same
   * reason, or when some call of the sequence composes a new one.
   */
  lemma {:induction false} RunForgetsHistory(b1: Record, b2: Record, ops: seq<Op>)
    requires ops != []
    requires b1.reason == b2.reason || ComposesReason(ops)
    ensures Run(b1, ops) == Run(b2, ops)
    decreases |ops|
  {
    var a1, a2 := Apply(b1, ops[0]), Apply(b2, ops[0]);
    if |ops| == 1 {
      if b1.reason != b2.reason {
        var i :| 0 <= i < |ops| && Composed(ops[i]).Some?;
        assert i == 0;
      }
      assert Run(a1, ops[1..]) == a1;
      assert Run(a2, ops[1..]) == a2;
    } else {
      if a1.reason != a2.reason {
        var i :| 0 <= i < |ops| && Composed(ops[i]).Some?;
        assert i != 0;
        assert ops[1..][i - 1] == ops[i];
      }
      RunForgetsHistory(a1, a2, ops[1..]);
    }
  }

  /**
   * Reusing a buffer is as good as a fresh one from dsb_create, as long as
   * some call composes a reason (dsb_reset does, with the empty text).
   */
  lemma ReuseIsFresh(b: Record, ops: seq<Op>)
    requires ops != [] && ComposesReason(ops)
    ensures Run(b, ops) == Run(Create(), ops)
  {
    RunForgetsHistory(b, Create(), ops);
  }

  /** In particular, dsb_reset followed by any calls matches a fresh buffer. */
  lemma ResetThenRun(b: Record, ops: seq<Op>)
    ensures Run(b, [ResetOp] + ops) == Run(Create(), ops)
  {
    assert ([ResetOp] + ops)[1..] == ops;
  }
}
