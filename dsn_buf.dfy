// The DSN_BUF of global/dsn_buf.c as a mutable object: one field per
// struct member, one method per dsb_* operation. Every method states what
// each of the eight fields holds afterwards, and ties the new contents to
// the matching function of module DsnRecord.

module DsnBuf {
  import opened DsnRecord

  class Buffer {
    var status: CString
    var action: CString
    var mtype: CString
    var mname: CString
    var dtype: CString
    var dcode: Int32
    var dtext: CString
    var reason: CString

    /** The current contents as a value. */
    function Value(): Record
      reads this
    {
      Record(status, action, mtype, mname, dtype, dcode, dtext, reason)
    }

    /** dsb_create: every string field empty, the code zero. */
    constructor ()
      ensures Value() == Create()
      ensures IsEmpty(Value())
    {
      status := "";
      action := "";
      mtype := "";
      mname := "";
      dtype := "";
      dcode := 0;
      dtext := "";
      reason := "";
    }

    /** DSB_ACTION: store the action, or "" when it is null or empty. */
    method SetAction(status: CString, action: Option<CString>)
      modifies this`action
      ensures this.action == (if action.Some? then action.value else "")
    {
      this.action := Action(status, action);
    }

    /** DSB_MTA: a null type truncates type and name; otherwise both are copied. */
    method SetMta(mtype: Option<CString>, mname: CString)
      modifies this`mtype, this`mname
      ensures mtype.None? ==> this.mtype == "" && this.mname == ""
      ensures mtype.Some? ==> this.mtype == mtype.value && this.mname == mname
    {
      if mtype.None? {
        this.mtype := "";
        this.mname := "";
      } else {
        this.mtype := mtype.value;
        this.mname := mname;
      }
    }

    /** The diagnostic block of dsb_update and dsb_formal. */
    method SetReply(dtype: Option<CString>, dcode: Int32, dtext: CString)
      modifies this`dtype, this`dcode, this`dtext
      ensures dtype.None? ==> this.dtype == "" && this.dcode == 0 && this.dtext == ""
      ensures dtype.Some? ==> this.dtype == dtype.value && this.dcode == dcode && this.dtext == dtext
    {
      if dtype.None? {
        this.dtype := "";
        this.dcode := 0;
        this.dtext := "";
      } else {
        this.dtype := dtype.value;
        this.dcode := dcode;
        this.dtext := dtext;
      }
    }

    /** dsb_update: update all formal fields and the informal text. */
    method Update(status: CString, action: Option<CString>,
                  mtype: Option<CString>, mname: CString,
                  dtype: Option<CString>, dcode: Int32, dtext: CString,
                  reason: CString)
      modifies this
      ensures this.status == status
      ensures this.action == (if action.Some? then action.value else "")
      ensures mtype.None? ==> this.mtype == "" && this.mname == ""
      ensures mtype.Some? ==> this.mtype == mtype.value && this.mname == mname
      ensures dtype.None? ==> this.dtype == "" && this.dcode == 0 && this.dtext == ""
      ensures dtype.Some? ==> this.dtype == dtype.value && this.dcode == dcode && this.dtext == dtext
      ensures this.reason == reason
      ensures Value() == DsnRecord.Update(old(Value()), status, action, mtype, mname,
                                          dtype, dcode, dtext, reason)
    {
      this.status := status;
      SetAction(status, action);
      SetMta(mtype, mname);
      SetReply(dtype, dcode, dtext);
      this.reason := reason;
    }

    /** dsb_simple: update the status and informal text, reset the rest. */
    method Simple(status: CString, reason: CString)
      modifies this
      ensures this.status == status
      ensures this.action == "" && this.mtype == "" && this.mname == ""
      ensures this.dtype == "" && this.dcode == 0 && this.dtext == ""
      ensures this.reason == reason
      ensures Value() == DsnRecord.Simple(old(Value()), status, reason)
    {
      this.status := status;
      this.action := "";
      this.mtype := "";
      this.mname := "";
      this.dtype := "";
      this.dcode := 0;
      this.dtext := "";
      this.reason := reason;
    }

    /** dsb_unix: update the status, a UNIX diagnostic and the informal text. */
    method Unix(status: CString, dcode: Int32, dtext: CString, reason: CString)
      modifies this
      ensures this.status == status
      ensures this.action == "" && this.mtype == "" && this.mname == ""
      ensures this.dtype == DtypeUnix && this.dcode == dcode && this.dtext == dtext
      ensures this.reason == reason
      ensures Value() == DsnRecord.Unix(old(Value()), status, dcode, dtext, reason)
    {
      this.status := status;
      this.action := "";
      this.mtype := "";
      this.mname := "";
      this.dtype := DtypeUnix;
      this.dcode := dcode;
      this.dtext := dtext;
      this.reason := reason;
    }

    /** dsb_smtp: update the status, an SMTP diagnostic and the informal text. */
    method Smtp(status: CString, dcode: Int32, dtext: CString, reason: CString)
      modifies this
      ensures this.status == status
      ensures this.action == "" && this.mtype == "" && this.mname == ""
      ensures this.dtype == DtypeSmtp && this.dcode == dcode && this.dtext == dtext
      ensures this.reason == reason
      ensures Value() == DsnRecord.Smtp(old(Value()), status, dcode, dtext, reason)
    {
      this.status := status;
      this.action := "";
      this.mtype := "";
      this.mname := "";
      this.dtype := DtypeSmtp;
      this.dcode := dcode;
      this.dtext := dtext;
      this.reason := reason;
    }

    /** dsb_formal: update all formal fields; the informal text is kept. */
    method Formal(status: CString, action: Option<CString>,
                  mtype: Option<CString>, mname: CString,
                  dtype: Option<CString>, dcode: Int32, dtext: CString)
      modifies this
      ensures this.status == status
      ensures this.action == (if action.Some? then action.value else "")
      ensures mtype.None? ==> this.mtype == "" && this.mname == ""
      ensures mtype.Some? ==> this.mtype == mtype.value && this.mname == mname
      ensures dtype.None? ==> this.dtype == "" && this.dcode == 0 && this.dtext == ""
      ensures dtype.Some? ==> this.dtype == dtype.value && this.dcode == dcode && this.dtext == dtext
      ensures this.reason == old(this.reason)
      ensures Value() == DsnRecord.Formal(old(Value()), status, action, mtype, mname,
                                          dtype, dcode, dtext)
    {
      this.status := status;
      SetAction(status, action);
      SetMta(mtype, mname);
      SetReply(dtype, dcode, dtext);
    }

    /** dsb_status: update the status, reset the other formal fields; the informal text is kept. */
    method Status(status: CString)
      modifies this
      ensures this.status == status
      ensures this.action == "" && this.mtype == "" && this.mname == ""
      ensures this.dtype == "" && this.dcode == 0 && this.dtext == ""
      ensures this.reason == old(this.reason)
      ensures Value() == DsnRecord.Status(old(Value()), status)
    {
      this.status := status;
      this.action := "";
      this.mtype := "";
      this.mname := "";
      this.dtype := "";
      this.dcode := 0;
      this.dtext := "";
    }

    /** dsb_reset: truncate every field, keeping the buffer for reuse. */
    method Reset()
      modifies this
      ensures IsEmpty(Value())
      ensures Value() == DsnRecord.Reset(old(Value())) == Create()
    {
      status := "";
      action := "";
      mtype := "";
      mname := "";
      dtype := "";
      dcode := 0;
      dtext := "";
      reason := "";
    }
  }
}
