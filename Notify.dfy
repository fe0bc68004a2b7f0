/**
 * The two notifications of main.py: the admin summary of a new lead
 * (`notify_admin_waitlist`) and the double-opt-in mail with its confirmation
 * link (`send_double_opt_in`).  Each composes a mail and hands it to
 * `_send_email`, modelled as `Mail.SendEmail`.
 */
module Notify {
  import opened Wrappers
  import opened Text
  import opened UrlEncoding
  import opened Mail
  import opened Schema

  /** A composed mail, before it reaches the transport. */
  datatype Email = Email(subject: string, body: string, to: string)

  const DefaultAdminEmail := "max.salterberg@kmu-freight.com"
  const AdminSubject := "Neuer Warteliste/Lead \U{2013} KMU\U{2011}Freight"
  const OptInSubject := "Bitte bestätige deine Anmeldung \U{2013} KMU\U{2011}Freight"
  const ConfirmPath := "/confirm?"

  /** Where the admin summary goes: ADMIN_EMAIL, or the built-in address when unset. */
  function AdminRecipient(env: Env): (to: string)
    ensures "ADMIN_EMAIL" in env ==> to == env["ADMIN_EMAIL"]
    ensures "ADMIN_EMAIL" !in env ==> to == DefaultAdminEmail
  {
    GetenvOr(env, "ADMIN_EMAIL", DefaultAdminEmail)
  }

  /** `str(b)` for a Python bool. */
  function BoolText(b: bool): (r: string)
    ensures b <==> r == "True"
    ensures !b <==> r == "False"
  {
    if b then "True" else "False"
  }

  /** `lead.message or '-'`. */
  function MessageOrDash(m: Option<string>): (r: string)
    ensures m.None? || m == Some("") ==> r == "-"
    ensures m.Some? && m.value != "" ==> r == m.value
    ensures r != ""
  {
    match m
    case Some(x) => if x != "" then x else "-"
    case None => "-"
  }

  /** The admin summary text. */
  function AdminBody(lead: Lead): string
  {
    "Name: " + lead.name + "\n"
    + "Firma: " + lead.company + "\n"
    + "E-Mail: " + lead.email + "\n"
    + "Interesse: " + lead.interest + "\n"
    + "Zweck: " + lead.purpose + "\n"
    + "Einwilligung: " + BoolText(lead.consent) + "\n"
    + "Nachricht: " + MessageOrDash(lead.message) + "\n"
  }

  /** The seven lines of the admin summary, in their fixed order. */
  function AdminLines(lead: Lead): seq<string>
  {
    [ "Name: " + lead.name,
      "Firma: " + lead.company,
      "E-Mail: " + lead.email,
      "Interesse: " + lead.interest,
      "Zweck: " + lead.purpose,
      "Einwilligung: " + BoolText(lead.consent),
      "Nachricht: " + MessageOrDash(lead.message) ]
  }

  /** No text field of the lead spans several lines. */
  predicate SingleLineFields(lead: Lead)
  {
    && '\n' !in lead.name && '\n' !in lead.company && '\n' !in lead.email
    && '\n' !in lead.interest && '\n' !in lead.purpose
    && (lead.message.Some? ==> '\n' !in lead.message.value)
  }

  /** `notify_admin_waitlist(lead)`: the mail it hands to `_send_email`,
      addressed to the admin and holding the seven summary lines. */
  function AdminNotification(env: Env, lead: Lead): (m: Email)
    ensures m.to == AdminRecipient(env)
    ensures m.subject == AdminSubject
    ensures SingleLineFields(lead) ==> Split(m.body) == AdminLines(lead) + [""]
  {
    var m := Email(AdminSubject, AdminBody(lead), AdminRecipient(env));
    assert SingleLineFields(lead) ==> Split(m.body) == AdminLines(lead) + [""] by {
      if SingleLineFields(lead) { AdminBodyLines(lead); }
    }
    m
  }

  /** `notify_admin_waitlist(lead)` with `_send_email` applied. */
  function NotifyAdminWaitlist(env: Env, lead: Lead): (d: Delivery)
    ensures d.ConsoleRecord? <==> !SmtpConfigured(env)
    ensures d.ConsoleRecord? ==>
      d.text == FallbackText(AdminSubject, AdminBody(lead), AdminRecipient(env))
    ensures d.SmtpSubmission? ==>
      d.message == OutgoingMessage(AdminSubject, Sender(env), AdminRecipient(env), AdminBody(lead))
  {
    var m := AdminNotification(env, lead);
    SendEmail(env, m.subject, m.body, m.to)
  }

  /** Appending one `tag value` line to text that ends in a newline. */
  lemma AppendFieldLine(x: string, done: seq<string>, tag: string, value: string)
    requires Split(x) == done + [""]
    requires '\n' !in tag && '\n' !in value
    ensures Split(x + tag + value + "\n") == done + [tag + value, ""]
  {
    var r := done + [""];
    assert r[..|r| - 1] == done && r[|r| - 1] + tag == tag;
    SplitAppendText(x, tag);
    var r' := done + [tag];
    assert r'[..|r'| - 1] == done && r'[|r'| - 1] == tag;
    SplitAppendText(x + tag, value);
    SplitAppendNewline(x + tag + value);
  }

  /** Seven `tag value` lines, each ending in a newline, whatever their words. */
  lemma SevenFieldLines(
    t0: string, v0: string, t1: string, v1: string, t2: string, v2: string,
    t3: string, v3: string, t4: string, v4: string, t5: string, v5: string,
    t6: string, v6: string)
    requires '\n' !in t0 && '\n' !in t1 && '\n' !in t2 && '\n' !in t3
    requires '\n' !in t4 && '\n' !in t5 && '\n' !in t6
    requires '\n' !in v0 && '\n' !in v1 && '\n' !in v2 && '\n' !in v3
    requires '\n' !in v4 && '\n' !in v5 && '\n' !in v6
    ensures Split(t0 + v0 + "\n" + t1 + v1 + "\n" + t2 + v2 + "\n" + t3 + v3 + "\n"
                  + t4 + v4 + "\n" + t5 + v5 + "\n" + t6 + v6 + "\n")
         == [t0 + v0, t1 + v1, t2 + v2, t3 + v3, t4 + v4, t5 + v5, t6 + v6, ""]
  {
    var x1 := "" + t0 + v0 + "\n";
    AppendFieldLine("", [], t0, v0);
    var x2 := x1 + t1 + v1 + "\n";
    AppendFieldLine(x1, [t0 + v0], t1, v1);
    var x3 := x2 + t2 + v2 + "\n";
    AppendFieldLine(x2, [t0 + v0, t1 + v1], t2, v2);
    var x4 := x3 + t3 + v3 + "\n";
    AppendFieldLine(x3, [t0 + v0, t1 + v1, t2 + v2], t3, v3);
    var x5 := x4 + t4 + v4 + "\n";
    AppendFieldLine(x4, [t0 + v0, t1 + v1, t2 + v2, t3 + v3], t4, v4);
    var x6 := x5 + t5 + v5 + "\n";
    AppendFieldLine(x5, [t0 + v0, t1 + v1, t2 + v2, t3 + v3, t4 + v4], t5, v5);
    AppendFieldLine(x6, [t0 + v0, t1 + v1, t2 + v2, t3 + v3, t4 + v4, t5 + v5], t6, v6);
    assert "" + t0 == t0;
  }

  /** The admin summary is exactly seven newline-terminated lines: Name,
      Firma, E-Mail, Interesse, Zweck, Einwilligung, Nachricht. */
  lemma AdminBodyLines(lead: Lead)
    requires SingleLineFields(lead)
    ensures Split(AdminBody(lead)) == AdminLines(lead) + [""]
  {
    assert '\n' !in "Name: " && '\n' !in "Firma: " && '\n' !in "E-Mail: ";
    assert '\n' !in "Interesse: " && '\n' !in "Zweck: ";
    assert '\n' !in "Einwilligung: " && '\n' !in "Nachricht: ";
    assert '\n' !in BoolText(lead.consent) && '\n' !in MessageOrDash(lead.message);
    SevenFieldLines("Name: ", lead.name, "Firma: ", lead.company, "E-Mail: ", lead.email,
                    "Interesse: ", lead.interest, "Zweck: ", lead.purpose,
                    "Einwilligung: ", BoolText(lead.consent), "Nachricht: ", MessageOrDash(lead.message));
  }

  /** The base of the confirmation link: FRONTEND_URL, empty when unset. */
  function FrontendBase(env: Env): (base: string)
    ensures "FRONTEND_URL" in env ==> base == env["FRONTEND_URL"]
    ensures "FRONTEND_URL" !in env ==> base == ""
  {
    GetenvOr(env, "FRONTEND_URL", "")
  }

  /** The confirmation link: with a base, the base, the path and the
      url-encoded token; without one, a relative link with the raw token. */
  function ConfirmUrl(base: string, token: string): (url: string)
    ensures base == "" ==> url == "/confirm?token=" + token
    ensures base != "" ==>
      && |url| >= |base| + |ConfirmPath|
      && url[..|base| + |ConfirmPath|] == base + ConfirmPath
      && url[|base| + |ConfirmPath|..] == "token=" + QuotePlus(token)
  {
    if base != "" then
      var u := base + ConfirmPath + UrlEncode("token", token);
      TokenKeyUnescaped();
      assert u == (base + ConfirmPath) + ("token=" + QuotePlus(token));
      u
    else "/confirm?token=" + token
  }

  /** The query key needs no escaping. */
  lemma TokenKeyUnescaped()
    ensures QuotePlus("token") == "token"
  {
    QuotePlusUnchangedIff("token");
  }

  const OptInGreeting := "Hallo,"
  // The two long lines are written in short pieces so that the verifier can
  // see that they hold no newline; joined, each is the source's sentence.
  const OptInRequest := "bitte bestätige " + "deine Anmeldung " + "zur Warteliste, "
    + "indem du auf den " + "folgenden Link " + "klickst:"
  const OptInIgnore := "Wenn du diese " + "Anfrage nicht " + "gestellt hast, "
    + "ignoriere diese " + "Nachricht."
  const OptInRegards := "Viele Grüße"
  const OptInSignature := "KMU\U{2011}Freight"

  /** The double-opt-in text around the link (the source's literal pieces,
      with each line break written separately). */
  function OptInBody(url: string): string
  {
    OptInGreeting + "\n" + "\n"
    + OptInRequest + "\n"
    + url + "\n" + "\n"
    + OptInIgnore + "\n" + "\n"
    + OptInRegards + "\n" + OptInSignature
  }

  /** The nine lines of the double-opt-in text; the link is the fourth. */
  function OptInLines(url: string): seq<string>
  {
    [OptInGreeting, "", OptInRequest, url, "", OptInIgnore, "", OptInRegards, OptInSignature]
  }

  /** The link is the fourth of the nine lines. */
  lemma OptInLinesLink(url: string)
    ensures |OptInLines(url)| == 9 && OptInLines(url)[3] == url
  {
  }

  lemma RequestSingleLine()
    ensures '\n' !in OptInRequest
  {
    var p1, p2, p3 := "bitte bestätige ", "deine Anmeldung ", "zur Warteliste, ";
    var p4, p5, p6 := "indem du auf den ", "folgenden Link ", "klickst:";
    assert '\n' !in p1 && '\n' !in p2 && '\n' !in p3;
    assert '\n' !in p4 && '\n' !in p5 && '\n' !in p6;
    NoNewlineConcat(p1, p2);
    NoNewlineConcat(p1 + p2, p3);
    NoNewlineConcat(p1 + p2 + p3, p4);
    NoNewlineConcat(p1 + p2 + p3 + p4, p5);
    NoNewlineConcat(p1 + p2 + p3 + p4 + p5, p6);
  }

  lemma IgnoreSingleLine()
    ensures '\n' !in OptInIgnore
  {
    var p1, p2, p3 := "Wenn du diese ", "Anfrage nicht ", "gestellt hast, ";
    var p4, p5 := "ignoriere diese ", "Nachricht.";
    assert '\n' !in p1 && '\n' !in p2 && '\n' !in p3;
    assert '\n' !in p4 && '\n' !in p5;
    NoNewlineConcat(p1, p2);
    NoNewlineConcat(p1 + p2, p3);
    NoNewlineConcat(p1 + p2 + p3, p4);
    NoNewlineConcat(p1 + p2 + p3 + p4, p5);
  }

  /** Nine lines in the layout of the double-opt-in text, whatever their words. */
  lemma OptInLayoutLines(g: string, req: string, url: string, ign: string, reg: string, sig: string)
    requires '\n' !in g && '\n' !in req && '\n' !in url
    requires '\n' !in ign && '\n' !in reg && '\n' !in sig
    ensures Split(g + "\n" + "\n" + req + "\n" + url + "\n" + "\n" + ign + "\n" + "\n" + reg + "\n" + sig)
         == [g, "", req, url, "", ign, "", reg, sig]
  {
    SplitSingleLine(g);
    var x1 := g + "\n" + "\n" + req;
    SplitAppendBlankLine(g, [g], req);
    var x2 := x1 + "\n" + url;
    SplitAppendBreakLine(x1, [g, "", req], url);
    var x3 := x2 + "\n" + "\n" + ign;
    SplitAppendBlankLine(x2, [g, "", req, url], ign);
    var x4 := x3 + "\n" + "\n" + reg;
    SplitAppendBlankLine(x3, [g, "", req, url, "", ign], reg);
    SplitAppendBreakLine(x4, [g, "", req, url, "", ign, "", reg], sig);
  }

  /** The double-opt-in text reads as its nine lines, the link alone on the
      fourth. */
  lemma OptInBodyLines(url: string)
    requires '\n' !in url
    ensures Split(OptInBody(url)) == OptInLines(url)
  {
    RequestSingleLine();
    IgnoreSingleLine();
    assert '\n' !in OptInGreeting && '\n' !in OptInRegards && '\n' !in OptInSignature;
    OptInLayoutLines(OptInGreeting, OptInRequest, url, OptInIgnore, OptInRegards, OptInSignature);
  }

  /** The link never spans lines when the base has no newline (and, for the
      relative form, the token has none). */
  lemma ConfirmUrlSingleLine(base: string, token: string)
    requires '\n' !in base
    requires base == "" ==> '\n' !in token
    ensures '\n' !in ConfirmUrl(base, token)
  {
    var url := ConfirmUrl(base, token);
    if base == "" {
      NoNewlineConcat("/confirm?token=", token);
    } else {
      var q := QuotePlus(token);
      EscapedHasNoSeparator(q);
      NoNewlineConcat(base, ConfirmPath);
      NoNewlineConcat("token=", q);
      assert url == base + ConfirmPath + ("token=" + q);
      NoNewlineConcat(base + ConfirmPath, "token=" + q);
    }
  }

  lemma RelativeLinkPrefix()
    ensures ConfirmPath + "token=" == "/confirm?token="
  {
  }

  /** With a base, the link is the base followed by the relative form exactly
      when the token is url-safe (as every token `token_urlsafe` makes is). */
  lemma ConfirmUrlFormsAgree(base: string, token: string)
    requires base != ""
    ensures ConfirmUrl(base, token) == base + ConfirmUrl("", token) <==> UrlSafe(token)
  {
    var q := QuotePlus(token);
    var url := ConfirmUrl(base, token);
    var head := base + ConfirmPath;
    assert url == head + ("token=" + q) by {
      assert url == url[..|head|] + url[|head|..];
    }
    assert base + ConfirmUrl("", token) == head + ("token=" + token) by {
      RelativeLinkPrefix();
      ConcatAssoc(base, ConfirmPath, "token=" + token);
      ConcatAssoc(ConfirmPath, "token=", token);
    }
    PrefixCancel(head, "token=" + q, "token=" + token);
    PrefixCancel("token=", q, token);
    QuotePlusUnchangedIff(token);
  }

  /** The text around a link for the token reads as its nine lines. */
  lemma LinkBodyLines(base: string, token: string)
    requires '\n' !in base && '\n' !in token
    ensures Split(OptInBody(ConfirmUrl(base, token))) == OptInLines(ConfirmUrl(base, token))
  {
    ConfirmUrlSingleLine(base, token);
    OptInBodyLines(ConfirmUrl(base, token));
  }

  /** `send_double_opt_in(to_email, token)`: the mail it hands to
      `_send_email`, addressed to `to_email`, whose fourth line is the
      confirmation link. */
  function DoubleOptInMail(env: Env, toEmail: string, token: string): (m: Email)
    ensures m.to == toEmail
    ensures m.subject == OptInSubject
    ensures '\n' !in FrontendBase(env) && '\n' !in token ==>
      Split(m.body) == OptInLines(ConfirmUrl(FrontendBase(env), token))
  {
    var base := FrontendBase(env);
    var confirmUrl := ConfirmUrl(base, token);
    var m := Email(OptInSubject, OptInBody(confirmUrl), toEmail);
    assert '\n' !in base && '\n' !in token ==> Split(m.body) == OptInLines(confirmUrl) by {
      if '\n' !in base && '\n' !in token { LinkBodyLines(base, token); }
    }
    m
  }

  /** `send_double_opt_in(to_email, token)` with `_send_email` applied. */
  function SendDoubleOptIn(env: Env, toEmail: string, token: string): (d: Delivery)
    ensures d.ConsoleRecord? <==> !SmtpConfigured(env)
    ensures d.ConsoleRecord? ==>
      d.text == FallbackText(OptInSubject, OptInBody(ConfirmUrl(FrontendBase(env), token)), toEmail)
    ensures d.SmtpSubmission? ==>
      d.message == OutgoingMessage(OptInSubject, Sender(env), toEmail,
                                   OptInBody(ConfirmUrl(FrontendBase(env), token)))
  {
    var m := DoubleOptInMail(env, toEmail, token);
    SendEmail(env, m.subject, m.body, m.to)
  }
}
