/**
 * The configuration reads and the transport decision of `_send_email`
 * (main.py).  The process environment is an explicit map; the SMTP session
 * itself (connect, STARTTLS, login, send) is represented only by the
 * submission it would carry.
 */
module Mail {
  import opened Wrappers
  import opened Text

  /** The process environment, `os.environ`. */
  type Env = map<string, string>

  /** `os.getenv(key)`. */
  function Getenv(env: Env, key: string): (v: Option<string>)
    ensures v.Some? <==> key in env
    ensures v.Some? ==> v.value == env[key]
  {
    if key in env then Some(env[key]) else None
  }

  /** `os.getenv(key, default)`: the default applies only when the variable is
      unset; a variable set to the empty string yields the empty string. */
  function GetenvOr(env: Env, key: string, default: string): (v: string)
    ensures key in env ==> v == env[key]
    ensures key !in env ==> v == default
  {
    match Getenv(env, key)
    case Some(x) => x
    case None => default
  }

  /** Python truthiness of a `getenv` result: set and non-empty. */
  predicate Present(v: Option<string>)
  {
    v.Some? && v.value != ""
  }

  const DefaultSender := "no-reply@kmu-freight.com"
  const DefaultPort := "587"

  /** All three of host, user name and password are present. */
  predicate SmtpConfigured(env: Env)
    ensures SmtpConfigured(env) <==>
      && "SMTP_HOST" in env && env["SMTP_HOST"] != ""
      && "SMTP_USERNAME" in env && env["SMTP_USERNAME"] != ""
      && "SMTP_PASSWORD" in env && env["SMTP_PASSWORD"] != ""
  {
    Present(Getenv(env, "SMTP_HOST"))
    && Present(Getenv(env, "SMTP_USERNAME"))
    && Present(Getenv(env, "SMTP_PASSWORD"))
  }

  /** The sender: SMTP_FROM if set, else ADMIN_EMAIL if set, else the
      no-reply address. */
  function Sender(env: Env): (from: string)
    ensures "SMTP_FROM" in env ==> from == env["SMTP_FROM"]
    ensures "SMTP_FROM" !in env && "ADMIN_EMAIL" in env ==> from == env["ADMIN_EMAIL"]
    ensures "SMTP_FROM" !in env && "ADMIN_EMAIL" !in env ==> from == DefaultSender
    ensures from == "" ==>
      ("SMTP_FROM" in env && env["SMTP_FROM"] == "")
      || ("SMTP_FROM" !in env && "ADMIN_EMAIL" in env && env["ADMIN_EMAIL"] == "")
  {
    GetenvOr(env, "SMTP_FROM", GetenvOr(env, "ADMIN_EMAIL", DefaultSender))
  }

  /** The message `_send_email` builds for the SMTP path. */
  datatype OutgoingMessage = OutgoingMessage(subject: string, sender: string, to: string, body: string)

  /** What happens to a message: a console record, or handing it to an SMTP
      session with the configured host, port text and credentials. */
  datatype Delivery =
    | ConsoleRecord(text: string)
    | SmtpSubmission(host: string, port: string, username: string, password: string, message: OutgoingMessage)

  /** The text of the console fallback; `print` writes it followed by one
      more newline. */
  function FallbackText(subject: string, body: string, to: string): (r: string)
    ensures |r| == |to| + |subject| + |body| + 33
  {
    "[EMAIL-FALLBACK] To: " + to + "\nSubject: " + subject + "\n\n" + body
  }

  /** `_send_email(subject, body, to_email)`. */
  function SendEmail(env: Env, subject: string, body: string, to: string): (d: Delivery)
    ensures d.ConsoleRecord? <==> !SmtpConfigured(env)
    ensures d.ConsoleRecord? ==> d.text == FallbackText(subject, body, to)
    ensures d.SmtpSubmission? ==>
      && d.message == OutgoingMessage(subject, Sender(env), to, body)
      && Getenv(env, "SMTP_HOST") == Some(d.host) && d.host != ""
      && Getenv(env, "SMTP_USERNAME") == Some(d.username) && d.username != ""
      && Getenv(env, "SMTP_PASSWORD") == Some(d.password) && d.password != ""
      && d.port == GetenvOr(env, "SMTP_PORT", DefaultPort)
  {
    var host := Getenv(env, "SMTP_HOST");
    var port := GetenvOr(env, "SMTP_PORT", DefaultPort);
    var username := Getenv(env, "SMTP_USERNAME");
    var password := Getenv(env, "SMTP_PASSWORD");
    var from := Sender(env);
    if !Present(host) || !Present(username) || !Present(password) then
      ConsoleRecord(FallbackText(subject, body, to))
    else
      SmtpSubmission(host.value, port, username.value, password.value,
                     OutgoingMessage(subject, from, to, body))
  }

  /** The console record reads: a recipient line, a subject line, a blank
      line, then the body's own lines. */
  lemma FallbackTextLines(subject: string, body: string, to: string)
    requires '\n' !in to && '\n' !in subject
    ensures Split(FallbackText(subject, body, to))
         == ["[EMAIL-FALLBACK] To: " + to, "Subject: " + subject, ""] + Split(body)
  {
    var l1, l2 := "[EMAIL-FALLBACK] To: " + to, "Subject: " + subject;
    assert '\n' !in l1 && '\n' !in l2 by {
      forall k | 0 <= k < |l1| ensures l1[k] != '\n' {
        if k >= 21 { assert l1[k] == to[k - 21]; }
      }
      forall k | 0 <= k < |l2| ensures l2[k] != '\n' {
        if k >= 9 { assert l2[k] == subject[k - 9]; }
      }
    }
    assert FallbackText(subject, body, to) == l1 + "\n" + (l2 + "\n" + ("" + "\n" + body));
    SplitLine(l1, l2 + "\n" + ("" + "\n" + body));
    SplitLine(l2, "" + "\n" + body);
    SplitLine("", body);
  }

  /** The first line of the console record names the recipient. */
  lemma FallbackFirstLine(subject: string, body: string, to: string)
    requires '\n' !in to
    ensures Split(FallbackText(subject, body, to))[0] == "[EMAIL-FALLBACK] To: " + to
  {
    var l1 := "[EMAIL-FALLBACK] To: " + to;
    NoNewlineConcat("[EMAIL-FALLBACK] To: ", to);
    var rest := "Subject: " + subject + "\n\n" + body;
    assert FallbackText(subject, body, to) == l1 + "\n" + rest;
    SplitLine(l1, rest);
  }
}
