// emails/services.py: the log row of a single send and its move from
// pending to sent or failed, the tally of a bulk send, the context of a
// template send and Python's `str.format` that renders it, and the
// default templates. `send_mail` is an oracle whose outcome is a
// parameter.
module Emails {
  import opened Common
  import Text

  const Pending: string := "pending"
  const Sent: string := "sent"
  const Failed: string := "failed"

  /** What `send_mail` did: returned a count (0 is falsy), or raised with a message. */
  datatype SendOutcome = Returned(count: int) | Raised(error: string)

  predicate Delivered(o: SendOutcome)
  {
    o.Returned? && o.count != 0
  }

  /** The user an email goes to. */
  datatype Recipient = Recipient(id: int, email: string, firstName: string, username: string)

  /** An `EmailLog` row; `template` is the template's name. */
  datatype EmailLog = EmailLog(
    recipient: int,
    subject: string,
    body: string,
    template: Option<string>,
    sentBy: Option<int>,
    status: string,
    sentAt: Option<int>,
    errorMessage: Option<string>)

  /** An `EmailTemplate` row; names are unique. */
  datatype Template = Template(name: string, subject: string, body: string, isActive: bool)

  /** The log row a single send leaves behind. */
  function Finished(r: Recipient, subject: string, body: string, template: Option<string>, sentBy: Option<int>,
                    o: SendOutcome, now: int): EmailLog
  {
    var pending := EmailLog(r.id, subject, body, template, sentBy, Pending, None, None);
    if Delivered(o) then pending.(status := Sent, sentAt := Some(now))
    else if o.Returned? then pending.(status := Failed, errorMessage := Some("Email sending returned False"))
    else pending.(status := Failed, errorMessage := Some(o.error))
  }

  /** The pair `send_single_email` returns. */
  function SingleReply(o: SendOutcome): (bool, string)
  {
    if Delivered(o) then (true, "Email sent successfully")
    else if o.Returned? then (false, "Email sending failed - no error details")
    else (false, "SMTP Error: " + o.error)
  }

  /**
   * The log ends 'sent' with a send time exactly when the send returned a
   * truthy value, which is also when the reply is a success; otherwise it
   * ends 'failed' with the reason, and the message fields are the caller's.
   */
  lemma FinishedRules(r: Recipient, subject: string, body: string, template: Option<string>, sentBy: Option<int>,
                      o: SendOutcome, now: int)
    ensures var log := Finished(r, subject, body, template, sentBy, o, now);
      (log.status == Sent <==> Delivered(o)) && (log.status == Sent || log.status == Failed)
      && (log.sentAt.Some? <==> Delivered(o)) && (log.errorMessage.Some? <==> !Delivered(o))
      && (SingleReply(o).0 <==> Delivered(o))
      && log.recipient == r.id && log.subject == subject && log.body == body && log.template == template
      && log.sentBy == sentBy
    ensures o.Returned? && o.count == 0 ==>
      Finished(r, subject, body, template, sentBy, o, now).errorMessage == Some("Email sending returned False")
    ensures o.Raised? ==> Finished(r, subject, body, template, sentBy, o, now).errorMessage == Some(o.error)
  {
  }

  /** The results dict of `send_bulk_email` over the first sends. */
  datatype Tally = Tally(sent: nat, failed: nat, errors: seq<string>)

  /** The tally after the given recipients, with their outcomes in order. */
  function TallyOf(rs: seq<Recipient>, os: seq<SendOutcome>): Tally
    requires |rs| == |os|
  {
    if rs == [] then Tally(0, 0, [])
    else
      var t := TallyOf(rs[..|rs| - 1], os[..|os| - 1]);
      var o := os[|os| - 1];
      Counted(t, rs[|rs| - 1], o)
  }

  /** The tally after one more send. */
  function Counted(t: Tally, r: Recipient, o: SendOutcome): Tally
  {
    if SingleReply(o).0 then t.(sent := t.sent + 1)
    else t.(failed := t.failed + 1, errors := t.errors + [r.email + ": " + SingleReply(o).1])
  }

  /** Every recipient is counted once, as sent or as failed, and each failure has one error line. */
  lemma {:induction false} TallyCounts(rs: seq<Recipient>, os: seq<SendOutcome>)
    requires |rs| == |os|
    ensures TallyOf(rs, os).sent + TallyOf(rs, os).failed == |rs|
    ensures |TallyOf(rs, os).errors| == TallyOf(rs, os).failed
    ensures TallyOf(rs, os).sent == |DeliveredAt(os)|
  {
    if rs != [] {
      TallyCounts(rs[..|rs| - 1], os[..|os| - 1]);
      assert os == os[..|os| - 1] + [os[|os| - 1]];
    }
  }

  /** The positions of the outcomes that delivered. */
  function DeliveredAt(os: seq<SendOutcome>): (r: seq<nat>)
    ensures forall k :: 0 <= k < |r| ==> r[k] < |os| && Delivered(os[r[k]])
  {
    if os == [] then []
    else DeliveredAt(os[..|os| - 1]) + (if Delivered(os[|os| - 1]) then [|os| - 1] else [])
  }

  /** The log rows a bulk send appends, one per recipient in order. */
  function BulkLogs(rs: seq<Recipient>, subject: string, body: string, template: Option<string>, sentBy: Option<int>,
                    os: seq<SendOutcome>, now: int): (logs: seq<EmailLog>)
    requires |rs| == |os|
  {
    if rs == [] then []
    else BulkLogs(rs[..|rs| - 1], subject, body, template, sentBy, os[..|os| - 1], now)
         + [Finished(rs[|rs| - 1], subject, body, template, sentBy, os[|os| - 1], now)]
  }

  /** The k-th appended row is the k-th recipient's single send, and there is one row per recipient. */
  lemma {:induction false} BulkLogsRows(rs: seq<Recipient>, subject: string, body: string, template: Option<string>,
                                        sentBy: Option<int>, os: seq<SendOutcome>, now: int)
    requires |rs| == |os|
    ensures |BulkLogs(rs, subject, body, template, sentBy, os, now)| == |rs|
    ensures forall k :: 0 <= k < |rs| ==>
      BulkLogs(rs, subject, body, template, sentBy, os, now)[k] == Finished(rs[k], subject, body, template, sentBy, os[k], now)
  {
    if rs != [] {
      BulkLogsRows(rs[..|rs| - 1], subject, body, template, sentBy, os[..|os| - 1], now);
    }
  }

  /** One more recipient: the tally and the logs of the longer prefix extend those of the shorter one. */
  lemma BulkStep(rs: seq<Recipient>, subject: string, body: string, template: Option<string>, sentBy: Option<int>,
                 os: seq<SendOutcome>, now: int, i: nat)
    requires |rs| == |os| && i < |rs|
    ensures TallyOf(rs[..i + 1], os[..i + 1]) == Counted(TallyOf(rs[..i], os[..i]), rs[i], os[i])
    ensures BulkLogs(rs[..i + 1], subject, body, template, sentBy, os[..i + 1], now)
      == BulkLogs(rs[..i], subject, body, template, sentBy, os[..i], now)
         + [Finished(rs[i], subject, body, template, sentBy, os[i], now)]
  {
    assert rs[..i + 1][..i] == rs[..i] && os[..i + 1][..i] == os[..i];
  }

  /**
   * The context `send_template_email` formats with: the caller's keys
   * (none when it passed None), overridden by the recipient's name, email
   * and username, the name being the first name or else the username.
   */
  function TemplateContext(context: Option<map<string, string>>, r: Recipient): (c: map<string, string>)
    ensures c.Keys == (if context.Some? then context.value.Keys else {}) + {"user_name", "user_email", "user_username"}
    ensures c["user_name"] == (if r.firstName != "" then r.firstName else r.username)
    ensures c["user_email"] == r.email && c["user_username"] == r.username
    ensures forall k :: context.Some? && k in context.value && k !in {"user_name", "user_email", "user_username"} ==>
      c[k] == context.value[k]
  {
    var base := if context.Some? then context.value else map[];
    base["user_name" := if r.firstName != "" then r.firstName else r.username]
        ["user_email" := r.email]["user_username" := r.username]
  }

  // ---------------------------------------------------------------------
  // str.format with keyword arguments only

  const SingleOpen: string := "Single '{' encountered in format string"
  const SingleClose: string := "Single '}' encountered in format string"
  const Unterminated: string := "expected '}' before end of string"

  /** The IndexError of a field that asks for a positional argument, when there are none. */
  function IndexMessage(i: nat): string
  {
    "Replacement index " + Text.NatToString(i) + " out of range for positional args tuple"
  }

  /**
   * The position in `t` of the `}` that closes a replacement field opened
   * `depth` levels deep, counting nested braces; `|t|` when it is never
   * closed.
   */
  function FieldEnd(t: string, depth: nat): (n: nat)
    requires depth >= 1
    ensures n <= |t|
    ensures n < |t| ==> t[n] == '}'
  {
    if t == [] then 0
    else if t[0] == '}' then (if depth == 1 then 0 else 1 + FieldEnd(t[1..], depth - 1))
    else if t[0] == '{' then 1 + FieldEnd(t[1..], depth + 1)
    else 1 + FieldEnd(t[1..], depth)
  }

  /**
   * The value of a replacement field when only keyword arguments are
   * given: an automatic (empty) or numbered field has no positional
   * argument and raises IndexError; a name not in the context raises
   * KeyError, whose `str` is the quoted name.
   */
  function FieldValue(field: string, ctx: map<string, string>): Result<string, string>
  {
    if field == [] then Err(IndexMessage(0))
    else if Text.AllDigits(field) then Err(IndexMessage(Text.DigitsValue(field)))
    else if field in ctx then Ok(ctx[field])
    else Err(KeyErrorText(field))
  }

  /** `str` of a KeyError for a key without quotes in it: the key in single quotes. */
  function KeyErrorText(key: string): string
  {
    "'" + key + "'"
  }

  /** Literal text ahead of a rendering, or the rendering's error. */
  function Prepend(p: string, r: Result<string, string>): Result<string, string>
  {
    if r.Ok? then Ok(p + r.value) else r
  }

  /**
   * `s.format(**ctx)`: literal text is copied, `{{` and `}}` are single
   * braces, a replacement field is its value; a lone brace, an unclosed
   * field or a field without a value raises, with `str` of the exception
   * as the error, and the first of them from the left decides.
   */
  function PyFormat(s: string, ctx: map<string, string>): Result<string, string>
    decreases |s|
  {
    if s == [] then Ok([])
    else if s[0] == '}' then
      if |s| >= 2 && s[1] == '}' then Prepend("}", PyFormat(s[2..], ctx)) else Err(SingleClose)
    else if s[0] == '{' then
      if |s| == 1 then Err(SingleOpen)
      else if s[1] == '{' then Prepend("{", PyFormat(s[2..], ctx))
      else
        var n := FieldEnd(s[1..], 1);
        if n == |s| - 1 then Err(Unterminated)
        else
          var v := FieldValue(s[1..n + 1], ctx);
          if v.Err? then v else Prepend(v.value, PyFormat(s[n + 2..], ctx))
    else Prepend([s[0]], PyFormat(s[1..], ctx))
  }

  /** `s` with every brace doubled, which `str.format` reads back as `s`. */
  function Escape(s: string): (e: string)
    ensures |e| >= |s|
  {
    if s == [] then []
    else if s[0] == '{' || s[0] == '}' then [s[0], s[0]] + Escape(s[1..])
    else [s[0]] + Escape(s[1..])
  }

  predicate NoBraces(s: string)
  {
    forall i :: 0 <= i < |s| ==> s[i] != '{' && s[i] != '}'
  }

  /** Text without braces is its own escape. */
  lemma {:induction false} EscapePlain(s: string)
    requires NoBraces(s)
    ensures Escape(s) == s
  {
    if s != [] {
      EscapePlain(s[1..]);
    }
  }

  lemma PrependPrepend(a: string, b: string, r: Result<string, string>)
    ensures Prepend(a, Prepend(b, r)) == Prepend(a + b, r)
  {
    if r.Ok? {
      assert a + (b + r.value) == (a + b) + r.value;
    }
  }

  /**
   * Escaped text formats to itself whatever the context, and what follows
   * it is formatted on its own: `Escape(a) + b` formats to `a` followed by
   * the formatting of `b`.
   */
  lemma {:induction false} FormatEscape(a: string, b: string, ctx: map<string, string>)
    ensures PyFormat(Escape(a) + b, ctx) == Prepend(a, PyFormat(b, ctx))
  {
    if a == [] {
      assert Escape(a) + b == b;
      assert PyFormat(b, ctx).Err? || [] + PyFormat(b, ctx).value == PyFormat(b, ctx).value;
    } else {
      var rest := Escape(a[1..]) + b;
      FormatEscape(a[1..], b, ctx);
      PrependPrepend([a[0]], a[1..], PyFormat(b, ctx));
      assert [a[0]] + a[1..] == a;
      if a[0] == '{' || a[0] == '}' {
        var s := [a[0], a[0]] + rest;
        assert Escape(a) + b == s && s[2..] == rest;
      } else {
        var s := [a[0]] + rest;
        assert Escape(a) + b == s && s[1..] == rest;
      }
    }
  }

  /** A field name without braces is closed by the first `}` after it. */
  lemma {:induction false} FieldEndPlain(k: string, rest: string)
    requires NoBraces(k)
    ensures FieldEnd(k + "}" + rest, 1) == |k|
  {
    if k != [] {
      assert (k + "}" + rest)[1..] == k[1..] + "}" + rest;
      FieldEndPlain(k[1..], rest);
    }
  }

  /**
   * A named field is replaced by its value from the context, and a name
   * missing from the context raises KeyError: the rest is never reached.
   */
  lemma FormatField(k: string, rest: string, ctx: map<string, string>)
    requires k != [] && NoBraces(k) && !Text.AllDigits(k)
    ensures k in ctx ==> PyFormat("{" + k + "}" + rest, ctx) == Prepend(ctx[k], PyFormat(rest, ctx))
    ensures k !in ctx ==> PyFormat("{" + k + "}" + rest, ctx) == Err(KeyErrorText(k))
  {
    var s := "{" + k + "}" + rest;
    assert s[0] == '{' && s[1] == k[0];
    assert s[1..] == k + "}" + rest;
    FieldEndPlain(k, rest);
    assert s[1..|k| + 1] == k;
    assert s[|k| + 2..] == rest;
  }

  /** A positional field raises IndexError, since the template gets keyword arguments only. */
  lemma PositionalField(rest: string, ctx: map<string, string>)
    ensures PyFormat("{}" + rest, ctx) == Err(IndexMessage(0))
  {
    var s := "{}" + rest;
    assert s[1..] == "}" + rest;
    assert s[1..1] == [];
  }

  /** A lone brace raises ValueError. */
  lemma LoneBraces(ctx: map<string, string>)
    ensures PyFormat("{", ctx) == Err(SingleOpen)
    ensures PyFormat("}", ctx) == Err(SingleClose)
  {
  }

  /**
   * With no caller context, a template field `{user_name}` is the first
   * name, or the username when that is empty.
   */
  lemma UserNameField(r: Recipient, rest: string)
    ensures PyFormat("{user_name}" + rest, TemplateContext(None, r))
      == Prepend(if r.firstName != "" then r.firstName else r.username, PyFormat(rest, TemplateContext(None, r)))
  {
    var k := "user_name";
    assert "{user_name}" + rest == "{" + k + "}" + rest;
    assert !Text.AllDigits(k) by { assert !Text.IsDigit(k[0]); }
    FormatField(k, rest, TemplateContext(None, r));
  }

  /** With no caller context, a template field `{first_name}` raises KeyError. */
  lemma FirstNameField(r: Recipient, rest: string)
    ensures PyFormat("{first_name}" + rest, TemplateContext(None, r)) == Err(KeyErrorText("first_name"))
  {
    var k := "first_name";
    assert "{first_name}" + rest == "{" + k + "}" + rest;
    assert !Text.AllDigits(k) by { assert !Text.IsDigit(k[0]); }
    assert k !in TemplateContext(None, r) by {
      assert TemplateContext(None, r).Keys == {"user_name", "user_email", "user_username"};
      assert k[0] == 'f' && "user_name"[0] == 'u' && "user_email"[0] == 'u' && "user_username"[0] == 'u';
    }
    FormatField(k, rest, TemplateContext(None, r));
  }

  /** The greeting the default templates open with. */
  const Greeting: string := "Dear {{user_name}},"

  /**
   * The default bodies double their braces, so whatever the context their
   * greeting renders as the literal text "Dear {user_name},".
   */
  lemma GreetingLiteral(rest: string, ctx: map<string, string>)
    ensures PyFormat(Greeting + rest, ctx) == Prepend("Dear {user_name},", PyFormat(rest, ctx))
  {
    var r := PyFormat(rest, ctx);
    var x := "{{" + "user_name" + "}}" + ("," + rest);
    calc {
      PyFormat(Greeting + rest, ctx);
    == { assert Greeting + rest == "Dear " + x; }
      PyFormat("Dear " + x, ctx);
    == { FormatPlain("Dear ", x, ctx); }
      Prepend("Dear ", PyFormat(x, ctx));
    == { FormatDoubled("user_name", "," + rest, ctx); }
      Prepend("Dear ", Prepend("{" + "user_name" + "}", PyFormat("," + rest, ctx)));
    == { FormatPlain(",", rest, ctx); }
      Prepend("Dear ", Prepend("{" + "user_name" + "}", Prepend(",", r)));
    == { PrependPrepend("{" + "user_name" + "}", ",", r); }
      Prepend("Dear ", Prepend("{" + "user_name" + "}" + ",", r));
    == { PrependPrepend("Dear ", "{" + "user_name" + "}" + ",", r); }
      Prepend("Dear " + ("{" + "user_name" + "}" + ","), r);
    == { assert "Dear " + ("{" + "user_name" + "}" + ",") == "Dear {user_name},"; }
      Prepend("Dear {user_name},", r);
    }
  }

  /** Text without braces is copied. */
  lemma FormatPlain(a: string, rest: string, ctx: map<string, string>)
    requires NoBraces(a)
    ensures PyFormat(a + rest, ctx) == Prepend(a, PyFormat(rest, ctx))
  {
    EscapePlain(a);
    FormatEscape(a, rest, ctx);
  }

  /** Doubled braces around plain text give the text in single braces: no field is read. */
  lemma FormatDoubled(k: string, rest: string, ctx: map<string, string>)
    requires NoBraces(k)
    ensures PyFormat("{{" + k + "}}" + rest, ctx) == Prepend("{" + k + "}", PyFormat(rest, ctx))
  {
    EscapePlain(k);
    EscapeAppend(k, "}");
    EscapeAppend("{", k + "}");
    assert "{" + (k + "}") == "{" + k + "}";
    assert Escape("}") == "}}" && Escape("{") == "{{";
    assert Escape("{" + k + "}") == "{{" + k + "}}";
    FormatEscape("{" + k + "}", rest, ctx);
  }

  lemma {:induction false} EscapeAppend(a: string, b: string)
    ensures Escape(a + b) == Escape(a) + Escape(b)
  {
    if a != [] {
      assert (a + b)[1..] == a[1..] + b;
      EscapeAppend(a[1..], b);
    } else {
      assert a + b == b;
    }
  }

  const WelcomeBody: string := Greeting + WelcomeRest

  const WelcomeRest: string :=
    "\n\nWelcome to Addis Temari! We're excited to have you join our community of students pursuing their dreams.\n\n"
    + "Your account has been successfully created and you can now:\n- Browse our extensive database of universities\n"
    + "- Track your application progress\n- Access premium content and features\n\n"
    + "If you have any questions, feel free to contact our support team.\n\nBest regards,\nThe Addis Temari Team"

  const ReminderBody: string := Greeting + ReminderRest

  const ReminderRest: string :=
    "\n\nYour Addis Temari subscription will expire soon. To continue enjoying our premium features, please renew your subscription.\n\n"
    + "Premium features include:\n- Access to detailed university information\n- Application tracking tools\n- Priority support\n\n"
    + "Renew now to avoid any interruption in service.\n\nBest regards,\nThe Addis Temari Team"

  const DeadlineBody: string := Greeting + DeadlineRest

  const DeadlineRest: string :=
    "\n\nThis is a friendly reminder that you have university applications with upcoming deadlines.\n\n"
    + "Please check your dashboard to review your applications and ensure all required documents are submitted on time.\n\n"
    + "Best regards,\nThe Addis Temari Team"

  /**
   * Sending a default template never reads the context: each body renders
   * as "Dear {user_name}," and then its own text.
   */
  lemma DefaultsGreetLiterally(ctx: map<string, string>)
    ensures PyFormat(WelcomeBody, ctx) == Prepend("Dear {user_name},", PyFormat(WelcomeRest, ctx))
    ensures PyFormat(ReminderBody, ctx) == Prepend("Dear {user_name},", PyFormat(ReminderRest, ctx))
    ensures PyFormat(DeadlineBody, ctx) == Prepend("Dear {user_name},", PyFormat(DeadlineRest, ctx))
  {
    GreetingLiteral(WelcomeRest, ctx);
    GreetingLiteral(ReminderRest, ctx);
    GreetingLiteral(DeadlineRest, ctx);
  }

  /** The three templates `create_default_templates` installs, active by the model default. */
  const DefaultTemplates: seq<Template> := [
    Template("welcome", "Welcome to Addis Temari!", WelcomeBody, true),
    Template("subscription_reminder", "Your Addis Temari subscription is expiring soon", ReminderBody, true),
    Template("application_deadline", "Important: Application deadline approaching", DeadlineBody, true)
  ]

  /** Get-or-create by name of each template in turn: a name already present keeps its row. */
  function WithDefaults(m: map<string, Template>, ts: seq<Template>): map<string, Template>
  {
    if ts == [] then m
    else
      var t := ts[|ts| - 1];
      var w := WithDefaults(m, ts[..|ts| - 1]);
      if t.name in w then w else w[t.name := t]
  }

  /**
   * After installing, every default name is present, existing rows are
   * untouched, and a new row is the default of that name.
   */
  lemma {:induction false} WithDefaultsRules(m: map<string, Template>, ts: seq<Template>)
    ensures forall k :: 0 <= k < |ts| ==> ts[k].name in WithDefaults(m, ts)
    ensures forall n :: n in m ==> n in WithDefaults(m, ts) && WithDefaults(m, ts)[n] == m[n]
    ensures forall n :: n in WithDefaults(m, ts) && n !in m ==>
      exists k :: 0 <= k < |ts| && ts[k] == WithDefaults(m, ts)[n] && ts[k].name == n
  {
    if ts != [] {
      var init := ts[..|ts| - 1];
      WithDefaultsRules(m, init);
      var w := WithDefaults(m, init);
      forall n | n in WithDefaults(m, ts) && n !in m
        ensures exists k :: 0 <= k < |ts| && ts[k] == WithDefaults(m, ts)[n] && ts[k].name == n
      {
        if n in w {
          var k :| 0 <= k < |init| && init[k] == w[n] && init[k].name == n;
          assert ts[k] == init[k];
        } else {
          assert ts[|ts| - 1].name == n;
        }
      }
      forall k | 0 <= k < |ts|
        ensures ts[k].name in WithDefaults(m, ts)
      {
        if k < |init| {
          assert init[k] == ts[k];
        }
      }
    }
  }

  /** Every name of `ts` already present: installing changes nothing. */
  lemma {:induction false} WithDefaultsPresent(m: map<string, Template>, ts: seq<Template>)
    requires forall k :: 0 <= k < |ts| ==> ts[k].name in m
    ensures WithDefaults(m, ts) == m
  {
    if ts != [] {
      WithDefaultsPresent(m, ts[..|ts| - 1]);
    }
  }

  /** A second run of `create_default_templates` adds nothing. */
  lemma DefaultsIdempotent(m: map<string, Template>)
    ensures WithDefaults(WithDefaults(m, DefaultTemplates), DefaultTemplates) == WithDefaults(m, DefaultTemplates)
  {
    WithDefaultsRules(m, DefaultTemplates);
    WithDefaultsPresent(WithDefaults(m, DefaultTemplates), DefaultTemplates);
  }

  /** The email tables: the log and the templates by name. */
  class EmailStore {
    var logs: seq<EmailLog>
    var templates: map<string, Template>

    constructor (templates: map<string, Template>)
      ensures this.templates == templates && logs == []
    {
      this.templates := templates;
      logs := [];
    }

    /**
     * `send_single_email`: a pending row is logged first, then set to
     * sent or failed from what `send_mail` did.
     */
    method SendSingle(r: Recipient, subject: string, body: string, template: Option<string>, sentBy: Option<int>,
                      o: SendOutcome, now: int) returns (ok: bool, message: string)
      modifies this`logs
      ensures logs == old(logs) + [Finished(r, subject, body, template, sentBy, o, now)]
      ensures (ok, message) == SingleReply(o)
    {
      logs := logs + [EmailLog(r.id, subject, body, template, sentBy, Pending, None, None)];
      var i := |logs| - 1;
      match o
      case Returned(count) =>
        if count != 0 {
          logs := logs[i := logs[i].(status := Sent, sentAt := Some(now))];
          ok, message := true, "Email sent successfully";
        } else {
          logs := logs[i := logs[i].(status := Failed, errorMessage := Some("Email sending returned False"))];
          ok, message := false, "Email sending failed - no error details";
        }
      case Raised(e) =>
        logs := logs[i := logs[i].(status := Failed, errorMessage := Some(e))];
        ok, message := false, "SMTP Error: " + e;
    }

    /**
     * `send_bulk_email`: one single send per recipient, in order;
     * `sent + failed` is the number of recipients and there is one error
     * line per failure.
     */
    method SendBulk(rs: seq<Recipient>, subject: string, body: string, template: Option<string>, sentBy: Option<int>,
                    os: seq<SendOutcome>, now: int) returns (t: Tally)
      requires |os| == |rs|
      modifies this`logs
      ensures t == TallyOf(rs, os)
      ensures t.sent + t.failed == |rs| && |t.errors| == t.failed
      ensures logs == old(logs) + BulkLogs(rs, subject, body, template, sentBy, os, now)
    {
      t := Tally(0, 0, []);
      var i := 0;
      while i < |rs|
        invariant 0 <= i <= |rs|
        invariant t == TallyOf(rs[..i], os[..i])
        invariant logs == old(logs) + BulkLogs(rs[..i], subject, body, template, sentBy, os[..i], now)
      {
        var ok, message := SendSingle(rs[i], subject, body, template, sentBy, os[i], now);
        BulkStep(rs, subject, body, template, sentBy, os, now, i);
        assert logs == old(logs) + BulkLogs(rs[..i + 1], subject, body, template, sentBy, os[..i + 1], now);
        if ok {
          t := t.(sent := t.sent + 1);
        } else {
          t := t.(failed := t.failed + 1, errors := t.errors + [rs[i].email + ": " + message]);
        }
        assert t == Counted(TallyOf(rs[..i], os[..i]), rs[i], os[i]);
        i := i + 1;
      }
      assert rs[..i] == rs && os[..i] == os;
      TallyCounts(rs, os);
    }

    /**
     * `send_template_email`: an unknown or inactive template is refused
     * without a log row; the subject and then the body are formatted with
     * the context, and an exception there is returned as the message
     * without a log row; otherwise a single send of the rendered text.
     */
    method SendTemplate(r: Recipient, name: string, context: Option<map<string, string>>, sentBy: Option<int>,
                        o: SendOutcome, now: int) returns (ok: bool, message: string)
      modifies this`logs
      ensures !(name in templates && templates[name].isActive) ==>
        !ok && message == "Template '" + name + "' not found" && logs == old(logs)
      ensures name in templates && templates[name].isActive ==>
        var ctx := TemplateContext(context, r);
        var subject, body := PyFormat(templates[name].subject, ctx), PyFormat(templates[name].body, ctx);
        (subject.Err? ==> !ok && message == subject.error && logs == old(logs))
        && (subject.Ok? && body.Err? ==> !ok && message == body.error && logs == old(logs))
        && (subject.Ok? && body.Ok? ==>
              logs == old(logs) + [Finished(r, subject.value, body.value, Some(name), sentBy, o, now)]
              && (ok, message) == SingleReply(o))
    {
      if !(name in templates && templates[name].isActive) {
        return false, "Template '" + name + "' not found";
      }
      var t := templates[name];
      var ctx := TemplateContext(context, r);
      var subject := PyFormat(t.subject, ctx);
      if subject.Err? {
        return false, subject.error;
      }
      var body := PyFormat(t.body, ctx);
      if body.Err? {
        return false, body.error;
      }
      ok, message := SendSingle(r, subject.value, body.value, Some(name), sentBy, o, now);
    }

    /** `create_default_templates`: get-or-create of each default by name. */
    method CreateDefaultTemplates()
      modifies this`templates
      ensures templates == WithDefaults(old(templates), DefaultTemplates)
    {
      var i := 0;
      while i < |DefaultTemplates|
        invariant 0 <= i <= |DefaultTemplates|
        invariant templates == WithDefaults(old(templates), DefaultTemplates[..i])
      {
        var t := DefaultTemplates[i];
        assert DefaultTemplates[..i + 1][..i] == DefaultTemplates[..i];
        if t.name !in templates {
          templates := templates[t.name := t];
        }
        i := i + 1;
      }
      assert DefaultTemplates[..i] == DefaultTemplates;
    }
  }
}
