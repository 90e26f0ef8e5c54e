// The delivery status buffer of Postfix (global/dsn_buf.c) as a value:
// the eight fields of a DSN_BUF and one function per update operation.
// The mutable buffer itself is the class in module DsnBuf; the functions
// here are what its methods are proved against.

module DsnRecord {

  /** A possibly-null pointer argument. */
  datatype Option<T> = None | Some(value: T)

  const NUL: char := '\0'

  /** The value of a NUL-terminated C string: the characters before the terminator. */
  type CString = s: string | NUL !in s

  /** A C `int`. */
  type Int32 = x: int | -0x8000_0000 <= x < 0x8000_0000

  /** Remote-MTA type for DNS host or domain names, the only valid mtype. */
  const MtypeDns: CString := "dns"

  /** Diagnostic type written by dsb_unix (DSB_DTYPE_UNIX). */
  const DtypeUnix: CString := "x-unix"

  /** Diagnostic type written by dsb_smtp (DSB_DTYPE_SMTP). */
  const DtypeSmtp: CString := "smtp"

  /**
   * The contents of a DSN_BUF: the RFC 3463 status, the RFC 3464 action,
   * the remote-MTA type and name, the diagnostic type, code and text, and
   * the informal reason text.
   */
  datatype Record = Record(
    status: CString,
    action: CString,
    mtype: CString,
    mname: CString,
    dtype: CString,
    dcode: Int32,
    dtext: CString,
    reason: CString)

  /** Every formal field other than the status holds its default. */
  predicate FormalCleared(r: Record)
  {
    r.action == "" && r.mtype == "" && r.mname == "" &&
    r.dtype == "" && r.dcode == 0 && r.dtext == ""
  }

  /** Every field holds its default. */
  predicate IsEmpty(r: Record)
  {
    r.status == "" && FormalCleared(r) && r.reason == ""
  }

  /** A remote-MTA name is reported only together with a remote-MTA type. */
  predicate RemoteMtaConsistent(r: Record)
  {
    r.mtype == "" ==> r.mname == ""
  }

  /** A diagnostic code or text is reported only together with a diagnostic type. */
  predicate DiagnosticConsistent(r: Record)
  {
    r.dtype == "" ==> r.dcode == 0 && r.dtext == ""
  }

  /** The field-group invariant a notification generator relies on. */
  predicate WellFormed(r: Record)
  {
    RemoteMtaConsistent(r) && DiagnosticConsistent(r)
  }

  /**
   * The caller discipline on a type argument: either null, or a real token.
   * A non-null empty token is copied as it is, together with its siblings.
   */
  predicate TokenOk(t: Option<CString>)
  {
    t.Some? ==> t.value != ""
  }

  // ---------------------------------------------------------------------
  // The three macros

  /**
   * DSB_ACTION: a null or empty action is stored as "". The status is passed
   * in but takes no part: the action is never derived from it.
   */
  function Action(status: CString, action: Option<CString>): (a: CString)
    ensures a == (if action.Some? then action.value else "")
    ensures a != "" <==> action.Some? && action.value != ""
  {
    if action.Some? && action.value != "" then action.value else ""
  }

  /**
   * DSB_MTA: the remote-MTA type and name, as a pair. A null type truncates
   * both; otherwise both are copied verbatim, even an empty type.
   */
  function Mta(mtype: Option<CString>, mname: CString): (p: (CString, CString))
    ensures p.0 == (if mtype.Some? then mtype.value else "")
    ensures p.1 == (if mtype.Some? then mname else "")
  {
    if mtype.None? then ("", "") else (mtype.value, mname)
  }

  /**
   * The diagnostic block shared by dsb_update and dsb_formal: a null type
   * truncates the type and text and zeroes the code; otherwise all three
   * are taken from the arguments.
   */
  function Reply(dtype: Option<CString>, dcode: Int32, dtext: CString): (t: (CString, Int32, CString))
    ensures t.0 == (if dtype.Some? then dtype.value else "")
    ensures dtype.Some? ==> t.1 == dcode && t.2 == dtext
    ensures dtype.None? ==> t.1 == 0 && t.2 == ""
  {
    if dtype.None? then ("", 0, "") else (dtype.value, dcode, dtext)
  }

  // ---------------------------------------------------------------------
  // The operations, each as a function of the old contents

  /** dsb_create and dsb_reset: every string empty, the code zero. */
  function Create(): (r: Record)
    ensures IsEmpty(r) && WellFormed(r)
  {
    Record("", "", "", "", "", 0, "", "")
  }

  /** dsb_update: all formal fields and the reason text. */
  function Update(b: Record, status: CString, action: Option<CString>,
                  mtype: Option<CString>, mname: CString,
                  dtype: Option<CString>, dcode: Int32, dtext: CString,
                  reason: CString): (r: Record)
    ensures r.status == status && r.reason == reason
    ensures r.action != "" <==> action.Some? && action.value != ""
    ensures TokenOk(mtype) && TokenOk(dtype) ==> WellFormed(r)
  {
    var m := Mta(mtype, mname);
    var d := Reply(dtype, dcode, dtext);
    Record(status, Action(status, action), m.0, m.1, d.0, d.1, d.2, reason)
  }

  /** dsb_simple: the status and the reason; the other fields are reset. */
  function Simple(b: Record, status: CString, reason: CString): (r: Record)
    ensures r.status == status && r.reason == reason
    ensures FormalCleared(r) && WellFormed(r)
  {
    Record(status, "", "", "", "", 0, "", reason)
  }

  /** dsb_unix: the status, a UNIX diagnostic and the reason. */
  function Unix(b: Record, status: CString, dcode: Int32, dtext: CString, reason: CString): (r: Record)
    ensures r.status == status && r.reason == reason
    ensures r.action == "" && r.mtype == "" && r.mname == ""
    ensures r.dtype == DtypeUnix && r.dcode == dcode && r.dtext == dtext
    ensures WellFormed(r)
  {
    Record(status, "", "", "", DtypeUnix, dcode, dtext, reason)
  }

  /** dsb_smtp: the status, an SMTP diagnostic and the reason. */
  function Smtp(b: Record, status: CString, dcode: Int32, dtext: CString, reason: CString): (r: Record)
    ensures r.status == status && r.reason == reason
    ensures r.action == "" && r.mtype == "" && r.mname == ""
    ensures r.dtype == DtypeSmtp && r.dcode == dcode && r.dtext == dtext
    ensures WellFormed(r)
  {
    Record(status, "", "", "", DtypeSmtp, dcode, dtext, reason)
  }

  /** dsb_formal: all formal fields; the reason text is kept. */
  function Formal(b: Record, status: CString, action: Option<CString>,
                  mtype: Option<CString>, mname: CString,
                  dtype: Option<CString>, dcode: Int32, dtext: CString): (r: Record)
    ensures r.status == status && r.reason == b.reason
    ensures r.action != "" <==> action.Some? && action.value != ""
    ensures TokenOk(mtype) && TokenOk(dtype) ==> WellFormed(r)
  {
    var m := Mta(mtype, mname);
    var d := Reply(dtype, dcode, dtext);
    Record(status, Action(status, action), m.0, m.1, d.0, d.1, d.2, b.reason)
  }

  /** dsb_status: the status; the other formal fields are reset, the reason kept. */
  function Status(b: Record, status: CString): (r: Record)
    ensures r.status == status && r.reason == b.reason
    ensures FormalCleared(r) && WellFormed(r)
  {
    Record(status, "", "", "", "", 0, "", b.reason)
  }

  /** dsb_reset: every field truncated. */
  function Reset(b: Record): (r: Record)
    ensures IsEmpty(r) && WellFormed(r)
  {
    Record("", "", "", "", "", 0, "", "")
  }

  // ---------------------------------------------------------------------
  // Properties of single operations

  /** A fresh buffer and a reset one are the same all-empty record; reset is idempotent. */
  lemma ResetIsCreate(b: Record)
    ensures Reset(b) == Create()
    ensures IsEmpty(Create())
    ensures Reset(Reset(b)) == Reset(b)
  {
  }

  /** dsb_formal is dsb_update without the reason: both write the same formal fields. */
  lemma UpdateIsFormalWithReason(b: Record, status: CString, action: Option<CString>,
                                 mtype: Option<CString>, mname: CString,
                                 dtype: Option<CString>, dcode: Int32, dtext: CString,
                                 reason: CString)
    ensures Update(b, status, action, mtype, mname, dtype, dcode, dtext, reason)
         == Formal(b, status, action, mtype, mname, dtype, dcode, dtext).(reason := reason)
    ensures Formal(b, status, action, mtype, mname, dtype, dcode, dtext).reason == b.reason
  {
  }

  /**
   * dsb_update with no action, no remote MTA and no diagnostic is dsb_simple,
   * whatever name, code and text accompany the null types.
   */
  lemma UpdateWithoutGroupsIsSimple(b: Record, status: CString, action: Option<CString>,
                                    mname: CString, dcode: Int32, dtext: CString,
                                    reason: CString)
    requires action.None? || action.value == ""
    ensures Update(b, status, action, None, mname, None, dcode, dtext, reason)
         == Simple(b, status, reason)
  {
  }

  /** dsb_unix and dsb_smtp are dsb_update with no action, no remote MTA and a fixed type. */
  lemma UnixAndSmtpAreUpdates(b: Record, status: CString, mname: CString,
                              dcode: Int32, dtext: CString, reason: CString)
    ensures Unix(b, status, dcode, dtext, reason)
         == Update(b, status, None, None, mname, Some(DtypeUnix), dcode, dtext, reason)
    ensures Smtp(b, status, dcode, dtext, reason)
         == Update(b, status, None, None, mname, Some(DtypeSmtp), dcode, dtext, reason)
    ensures Unix(b, status, dcode, dtext, reason) != Smtp(b, status, dcode, dtext, reason)
  {
  }

  /** dsb_status is dsb_formal with no action, no remote MTA and no diagnostic. */
  lemma FormalWithoutGroupsIsStatus(b: Record, status: CString, action: Option<CString>,
                                    mname: CString, dcode: Int32, dtext: CString)
    requires action.None? || action.value == ""
    ensures Formal(b, status, action, None, mname, None, dcode, dtext) == Status(b, status)
  {
  }

  /** dsb_reset leaves what dsb_simple leaves for an empty status and reason. */
  lemma ResetIsEmptySimple(b: Record)
    ensures Simple(b, "", "") == Reset(b)
  {
  }

  /** The shortcut operations always produce a well-formed record. */
  lemma ShortcutsWellFormed(b: Record, status: CString, dcode: Int32, dtext: CString, reason: CString)
    ensures WellFormed(Simple(b, status, reason)) && FormalCleared(Simple(b, status, reason))
    ensures WellFormed(Unix(b, status, dcode, dtext, reason))
    ensures WellFormed(Smtp(b, status, dcode, dtext, reason))
    ensures WellFormed(Status(b, status)) && FormalCleared(Status(b, status))
    ensures WellFormed(Reset(b))
  {
  }

  /**
   * dsb_update leaves a well-formed record exactly when an empty, non-null
   * type is not accompanied by a name, code or text: the grouping rests on
   * the caller passing null or a real token.
   */
  lemma UpdateWellFormedIff(b: Record, status: CString, action: Option<CString>,
                            mtype: Option<CString>, mname: CString,
                            dtype: Option<CString>, dcode: Int32, dtext: CString,
                            reason: CString)
    ensures WellFormed(Update(b, status, action, mtype, mname, dtype, dcode, dtext, reason))
        <==> (mtype.Some? && mtype.value == "" ==> mname == "") &&
             (dtype.Some? && dtype.value == "" ==> dcode == 0 && dtext == "")
    ensures TokenOk(mtype) && TokenOk(dtype) ==>
            WellFormed(Update(b, status, action, mtype, mname, dtype, dcode, dtext, reason))
  {
  }

  /** The same holds for dsb_formal. */
  lemma FormalWellFormedIff(b: Record, status: CString, action: Option<CString>,
                            mtype: Option<CString>, mname: CString,
                            dtype: Option<CString>, dcode: Int32, dtext: CString)
    ensures WellFormed(Formal(b, status, action, mtype, mname, dtype, dcode, dtext))
        <==> (mtype.Some? && mtype.value == "" ==> mname == "") &&
             (dtype.Some? && dtype.value == "" ==> dcode == 0 && dtext == "")
  {
  }

  /** An empty, non-null remote-MTA type lets a name through without a type. */
  lemma EmptyMtypeKeepsName()
    ensures !RemoteMtaConsistent(Update(Create(), "5.0.0", None, Some(""), "mx.example.com",
                                        None, 0, "", "bounced"))
  {
  }

  /** A relayed delivery reported in full: every formal field as given, the groups consistent. */
  lemma RelayedScenario()
    ensures Update(Create(), "2.0.0", Some("relayed"), Some(MtypeDns), "mail.example.com",
                   Some(DtypeSmtp), 250, "OK", "delivered to example.com")
         == Record("2.0.0", "relayed", "dns", "mail.example.com", "smtp", 250, "OK",
                   "delivered to example.com")
    ensures WellFormed(Update(Create(), "2.0.0", Some("relayed"), Some(MtypeDns), "mail.example.com",
                              Some(DtypeSmtp), 250, "OK", "delivered to example.com"))
  {
  }

  /** An SMTP failure followed by a bare status bump: the reason text survives the bump. */
  lemma SmtpThenStatusScenario()
    ensures Smtp(Create(), "4.4.2", 450, "Connection timed out", "delivery temporarily failed")
         == Record("4.4.2", "", "", "", "smtp", 450, "Connection timed out", "delivery temporarily failed")
    ensures Status(Smtp(Create(), "4.4.2", 450, "Connection timed out", "delivery temporarily failed"), "5.1.1")
         == Record("5.1.1", "", "", "", "", 0, "", "delivery temporarily failed")
  {
  }
}
