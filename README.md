# Postfix delivery status buffer, in Dafny

This project models the delivery status buffer (`DSN_BUF`) of Postfix's
global library, `postfix/src/global/dsn_buf.c`. While a delivery agent
attempts a delivery it fills one such buffer with the formal RFC 3464
attributes of the outcome and an informal, human-readable reason:

- `status`: the RFC 3463 enhanced status code;
- `action`: the RFC 3464 action (in practice "expanded" or "relayed");
- `mtype`, `mname`: the remote-MTA type (`dns`) and host or domain name;
- `dtype`, `dcode`, `dtext`: the diagnostic type (`smtp` or `x-unix`),
  numeric reply code and reply text;
- `reason`: the informal text.

Each update operation (`dsb_update`, `dsb_simple`, `dsb_unix`, `dsb_smtp`,
`dsb_formal`, `dsb_status`, `dsb_reset`) overwrites a fixed set of fields and
resets every other formal field to its default, so that nothing from an
earlier attempt leaks into the next notification.

Files:

- `dsn_record.dfy`, module `DsnRecord`: the buffer's contents as a value
  (`Record`), C strings as `CString` (a `string` without NUL), the C `int`
  as `Int32`, null pointer arguments as `Option`. It has one function per
  macro (`DSB_ACTION`, `DSB_MTA`, and the diagnostic block that
  `dsb_update` and `dsb_formal` share) and one function per operation. It
  also holds the lemmas about single operations: equivalences between
  operations, and when the field groups stay consistent.
- `dsn_buf.dfy`, module `DsnBuf`: the buffer as a mutable `class Buffer`
  with the eight fields. It has a constructor for `dsb_create` and one
  method per operation. Each method assigns the fields as the C code does
  and states what every field holds afterwards. It also states that the new
  contents are the `DsnRecord` function of the old contents.
- `dsn_traces.dfy`, module `DsnTraces`: a sequence of calls on one reused
  buffer (`Op`, `Apply`, `Run`). Its induction lemmas say what holds after
  any such sequence:
  - the field groups stay consistent;
  - the reason is the one composed last;
  - the outcome does not depend on what the buffer held before;
  - reusing a buffer after `dsb_reset` matches a fresh one.

Modelling decisions:

- `DSB_TRUNCATE` writes a NUL at the start of a `VSTRING`. The model stores
  the resulting C-string value, `""`.
- The action, remote-MTA type and diagnostic type may be null pointers. They
  are `Option<CString>`. A null type and a non-null empty type are treated
  differently, as in the code: only null resets the group.
- `DSB_DTYPE_UNIX`, `DSB_DTYPE_SMTP` and `DSB_MTYPE_DNS` are defined in
  `dsn_buf.h`, which is not part of this model. They are the constants
  `"x-unix"`, `"smtp"` and `"dns"`, following the field comments at
  `dsn_buf.c:13-15`.
- The reason is passed in as the already-composed text. The formatting
  that produces it is not modelled.

Two places where the code is looser than its comments suggest; the model
follows the code:

- A notification generator expects a remote-MTA name, or a diagnostic code
  and text, only together with its type (`WellFormed`). The code tests the
  type only against null (`dsn_buf.c:209`, `:230`, `:318`). So `dsb_update`
  and `dsb_formal` given a non-null empty type copy the name, code and text
  beside an empty type. `UpdateWellFormedIff` states exactly when
  consistency holds, and `EmptyMtypeKeepsName` gives a concrete case where
  it fails. The source's own comments name the only valid tokens, so this
  is a caller obligation and not a defect. The consistency results take it
  as a hypothesis (`TokenOk`, `TokensOk`).
- The comment at `dsn_buf.c:106-107` says the action can be derived from
  the status. `DSB_ACTION` takes the status and never uses it. `Action`
  takes the status too, and its contract shows that the status has no
  effect.

## Model

| member | source | states |
|---|---|---|
| `DsnRecord.Action` | postfix/src/global/dsn_buf.c:205-206 | the stored action is the given one when non-null, else ""; it is non-empty exactly when a non-empty action was given; the status argument has no effect |
| `DsnRecord.Mta` | postfix/src/global/dsn_buf.c:208-216 | a null type clears both type and name; a non-null type (even empty) is copied with the name verbatim |
| `DsnRecord.Reply` | postfix/src/global/dsn_buf.c:230-238 | a null diagnostic type clears type and text and zeroes the code; otherwise all three take the arguments |
| `DsnRecord.Create` | postfix/src/global/dsn_buf.c:169-187 | reference definition `Buffer.constructor` and `Buffer.Reset` are proved against: every string empty and the code zero, so both groups are consistent |
| `DsnRecord.Update` | postfix/src/global/dsn_buf.c:220-244 | reference definition `Buffer.Update` is proved against: status and reason take the arguments, the action is non-empty exactly when a non-empty one is given, and null or real tokens leave both groups consistent |
| `DsnRecord.Simple` | postfix/src/global/dsn_buf.c:248-264 | reference definition `Buffer.Simple` is proved against: status and reason take the arguments and every other formal field is cleared |
| `DsnRecord.Unix` | postfix/src/global/dsn_buf.c:268-285 | reference definition `Buffer.Unix` is proved against: the UNIX type with the given code and text, action and remote MTA cleared, status and reason taken, groups consistent |
| `DsnRecord.Smtp` | postfix/src/global/dsn_buf.c:289-306 | reference definition `Buffer.Smtp` is proved against: the SMTP type with the given code and text, action and remote MTA cleared, status and reason taken, groups consistent |
| `DsnRecord.Formal` | postfix/src/global/dsn_buf.c:310-328 | reference definition `Buffer.Formal` is proved against: the status taken and the old reason kept, the action non-empty exactly when a non-empty one is given, and null or real tokens leave both groups consistent |
| `DsnRecord.Status` | postfix/src/global/dsn_buf.c:332-342 | reference definition `Buffer.Status` is proved against: the status taken, every other formal field cleared, the old reason kept |
| `DsnRecord.Reset` | postfix/src/global/dsn_buf.c:346-356 | reference definition `Buffer.Reset` is proved against: every field empty and the code zero, whatever the buffer held |
| `DsnRecord.RelayedScenario` | postfix/src/global/dsn_buf.c:220-244 | a fully specified relayed delivery (DNS remote MTA, SMTP reply 250) stores every formal field as given and the groups are consistent |
| `DsnRecord.ResetIsCreate` | postfix/src/global/dsn_buf.c:346-356 | reset yields the same all-empty record that create yields, whatever the buffer held; resetting twice equals resetting once |
| `DsnRecord.UpdateIsFormalWithReason` | postfix/src/global/dsn_buf.c:310-328 | dsb_formal writes exactly the formal fields dsb_update writes, and keeps the old reason |
| `DsnRecord.UpdateWithoutGroupsIsSimple` | postfix/src/global/dsn_buf.c:220-264 | dsb_update with a null or empty action, null mtype and null dtype gives the same record as dsb_simple with the same status and reason |
| `DsnRecord.UnixAndSmtpAreUpdates` | postfix/src/global/dsn_buf.c:268-306 | dsb_unix and dsb_smtp equal dsb_update with no action, no remote MTA and the UNIX or SMTP type; the two never give the same record |
| `DsnRecord.FormalWithoutGroupsIsStatus` | postfix/src/global/dsn_buf.c:332-342 | dsb_status equals dsb_formal with no action, no remote MTA and no diagnostic |
| `DsnRecord.ResetIsEmptySimple` | postfix/src/global/dsn_buf.c:248-264 | dsb_simple with empty status and reason leaves the buffer as dsb_reset does |
| `DsnRecord.ShortcutsWellFormed` | postfix/src/global/dsn_buf.c:248-306 | simple, unix, smtp, status and reset always leave both field groups consistent; simple and status clear every formal field except the status |
| `DsnRecord.UpdateWellFormedIff` | postfix/src/global/dsn_buf.c:227-238 | after dsb_update the groups are consistent if and only if an empty non-null type comes with an empty name, and an empty non-null dtype with a zero code and empty text; in particular null or real tokens always give consistency |
| `DsnRecord.FormalWellFormedIff` | postfix/src/global/dsn_buf.c:315-326 | the same if-and-only-if for dsb_formal |
| `DsnRecord.EmptyMtypeKeepsName` | postfix/src/global/dsn_buf.c:208-216 | an empty non-null remote-MTA type leaves a name without a type |
| `DsnRecord.SmtpThenStatusScenario` | postfix/src/global/dsn_buf.c:289-342 | an SMTP failure followed by a status bump gives the expected fields, and the reason from the SMTP call survives |
| `DsnBuf.Buffer.constructor` | postfix/src/global/dsn_buf.c:169-187 | a new buffer has every string empty and the code zero |
| `DsnBuf.Buffer.SetAction` | postfix/src/global/dsn_buf.c:205-206 | only the action changes; it becomes the given value, or "" for null or empty |
| `DsnBuf.Buffer.SetMta` | postfix/src/global/dsn_buf.c:208-216 | only mtype and mname change; both are cleared on a null type, else copied |
| `DsnBuf.Buffer.SetReply` | postfix/src/global/dsn_buf.c:230-238 | only dtype, dcode and dtext change; cleared and zeroed on a null type, else copied |
| `DsnBuf.Buffer.Update` | postfix/src/global/dsn_buf.c:220-244 | every field's new value: status, action, the remote-MTA group, the diagnostic group and the reason; the new contents are `DsnRecord.Update` of the old |
| `DsnBuf.Buffer.Simple` | postfix/src/global/dsn_buf.c:248-264 | status and reason take the arguments; action, mtype, mname, dtype, dtext become empty and dcode 0 |
| `DsnBuf.Buffer.Unix` | postfix/src/global/dsn_buf.c:268-285 | dtype becomes the UNIX token whatever it held; dcode, dtext, status and reason take the arguments; action, mtype, mname become empty |
| `DsnBuf.Buffer.Smtp` | postfix/src/global/dsn_buf.c:289-306 | dtype becomes the SMTP token whatever it held; dcode, dtext, status and reason take the arguments; action, mtype, mname become empty |
| `DsnBuf.Buffer.Formal` | postfix/src/global/dsn_buf.c:310-328 | every formal field as in dsb_update; the reason is unchanged |
| `DsnBuf.Buffer.Status` | postfix/src/global/dsn_buf.c:332-342 | status takes the argument; every other formal field is cleared; the reason is unchanged |
| `DsnBuf.Buffer.Reset` | postfix/src/global/dsn_buf.c:346-356 | every field is empty and the code zero, the same contents as a new buffer |
| `DsnTraces.Apply` | postfix/src/global/dsn_buf.c:218-356 | after one call the reason is the composed text, or the old reason for dsb_formal and dsb_status; a call with null or real tokens leaves both groups consistent whatever the buffer held |
| `DsnTraces.RunReason` | postfix/src/global/dsn_buf.c:218-356 | after any sequence of calls the reason is the text of the last call that composed one (reset composing ""), or the initial reason if none did |
| `DsnTraces.RunWellFormed` | postfix/src/global/dsn_buf.c:218-356 | if every call passes null or real type tokens, the groups are consistent after the sequence, given a consistent start or at least one call |
| `DsnTraces.RunForgetsHistory` | postfix/src/global/dsn_buf.c:218-356 | two buffers given the same non-empty sequence end identical when they held the same reason or some call composes a reason |
| `DsnTraces.ReuseIsFresh` | postfix/src/global/dsn_buf.c:167-187 | a reused buffer ends as a freshly created one would, once any call of the sequence composes a reason |
| `DsnTraces.ResetThenRun` | postfix/src/global/dsn_buf.c:344-356 | dsb_reset followed by any calls gives what the same calls give on a fresh buffer |

## Left out

- `dsb_free` and the allocation in `dsb_create`: storage is not modelled. That covers `mymalloc`, the `vstring_alloc` capacities 10 and 100, and the fatal out-of-memory exit. Only the resulting empty contents are modelled.
- The return value: every update operation returns the same `DSN_BUF` pointer it was given, which the methods do not return.
- `VSTRING` bookkeeping: `DSB_TRUNCATE` leaves the buffer's length counter as it was. Field contents are modelled as C-string values.
- Formatting of the reason: `vstring_vsprintf` and the variadic arguments are replaced by an already-composed `reason` argument.
- Null name and text pointers: `DSB_SKIP_RMTA` and `DSB_SKIP_REPLY` pass null for the name, code and text as well. The model passes an arbitrary string, which is ignored when the type is null.
- A null name or text beside a non-null type would crash `vstring_strcpy`. The model gives no way to pass one.
- `dsn_buf.h` is not part of this model. That header defines the `DSB_*` token macros, `DSB_DEF_ACTION`, `DSB_SKIP_RMTA` and `DSB_SKIP_REPLY`.
- `postfix/src/global/resolve_clnt.h`: the address-resolution client is an external service with no logic here to model.
- Argument aliasing: every string argument is taken as a value, so arguments are assumed not to point into the buffer's own fields. In C, `dsb_unix(dsb, s, c, STR(dsb->mname), fmt)` truncates `mname` at `dsn_buf.c:276` before copying it into `dtext` at `:279`, which stores ""; the model stores the old name.
