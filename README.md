# KMU-Freight lead capture: a Dafny model of its request layer

The service behind `main.py` accepts waitlist sign-ups ("leads"). It stores
each one as a pending record with a confirmation token and queues two mails:
a summary for the admin and a double-opt-in mail carrying the confirmation
link. It also answers the confirmation link. This project models that layer:

- `Api` holds the endpoints. `create_lead` is an imperative method over a
  document store class (a map from fresh ids to documents) and a background-task
  class (a queue). `confirm_waitlist` is a function.
- `Notify` composes the two mails: the admin summary and the confirmation link
  with the text around it.
- `Mail` models what `_send_email` decides from the environment: the SMTP
  submission, or the console fallback, and the sender address.
- `Schema` is the lead record and the document it is dumped to.
- `UrlEncoding` models the part of `urllib.parse.urlencode` the link uses.
- `Text` models Python's `str.split("\n")`. It is the reference used to state
  the line layout of the mails.
- `Wrappers` holds `Option` and `Result`.

The process environment is an explicit `map<string, string>`. The generated
token and the store's failure are parameters of `CreateLead`.

The model follows the code as written:

- `confirm_waitlist` is a placeholder. It reports success for every token and
  never touches the store. So the model has no pending-to-confirmed transition,
  no single-use token and no "invalid token" answer.
- The two notifications are queued in a fixed order: admin first, then opt-in.
- The response id is whatever the store returns. Here that is a fresh `nat`.

## Model

| member | source | states |
|---|---|---|
| `Mail.Getenv` | main.py:29-32 | `os.getenv(key)` is None exactly when the variable is unset, and otherwise its value |
| `Mail.SmtpConfigured` | main.py:35 | SMTP counts as configured exactly when SMTP_HOST, SMTP_USERNAME and SMTP_PASSWORD are all set and non-empty |
| `Mail.GetenvOr` | main.py:33 | `os.getenv(key, default)` gives the variable's value whenever it is set, even an empty one, and the default only when it is unset |
| `Mail.Sender` | main.py:33 | the sender is SMTP_FROM if set, else ADMIN_EMAIL if set, else `no-reply@kmu-freight.com`; it is empty only when the variable that wins is set to the empty string |
| `Mail.SendEmail` | main.py:28-49 | the result is a console record if and only if host, user name or password is unset or empty; the record holds recipient, subject and body; otherwise the message goes to SMTP with the configured host, port text (default 587) and credentials, from `Sender`, to the given address |
| `Mail.FallbackTextLines` | main.py:37 | the console record reads as a `[EMAIL-FALLBACK] To:` line, a `Subject:` line, a blank line, then the body's own lines |
| `Mail.FallbackFirstLine` | main.py:37 | the first line of the console record names the recipient |
| `Mail.FallbackText` | main.py:37 | the console text is 33 characters of fixed framing plus the recipient, subject and body; its line layout is stated by `FallbackTextLines` |
| `Notify.AdminRecipient` | main.py:53 | the admin summary goes to ADMIN_EMAIL, or to `max.salterberg@kmu-freight.com` when it is unset |
| `Notify.BoolText` | main.py:61 | `str(consent)` is `True` exactly when consent is given and `False` exactly when it is not |
| `Notify.MessageOrDash` | main.py:62 | a missing or empty message shows as `-`; any other message shows as it is; the shown text is never empty |
| `Notify.AdminBody` | main.py:55-63 | the admin summary text; it has no contract of its own, and its seven-line layout is stated by `AdminBodyLines` |
| `Notify.AdminBodyLines` | main.py:55-63 | the admin body is exactly seven newline-terminated lines, in the order Name, Firma, E-Mail, Interesse, Zweck, Einwilligung, Nachricht, each a tag followed by the lead's field |
| `Notify.AdminNotification` | main.py:52-64 | the admin mail goes to the configured admin address with the fixed subject, and its body splits into the seven summary lines |
| `Notify.NotifyAdminWaitlist` | main.py:52-64 | the admin mail falls back to the console exactly when SMTP is not configured; the console record is the fallback text of the admin subject, the summary body and the admin address; otherwise the SMTP message is exactly that subject and body, from `Sender`, to the admin address |
| `Notify.FrontendBase` | main.py:68 | the link base is FRONTEND_URL, or empty when it is unset |
| `Notify.ConfirmUrl` | main.py:69 | with an empty base the link is exactly `/confirm?token=` followed by the raw token; with a base it starts with the base and `/confirm?`, and the rest is `token=` followed by the escaped token |
| `Notify.ConfirmUrlFormsAgree` | main.py:69 | with a base, the link equals the base followed by the relative form exactly when every character of the token is URL-safe |
| `Notify.ConfirmUrlSingleLine` | main.py:69 | the link holds no newline when the base holds none (and, for the relative form, when the token holds none) |
| `Notify.OptInBody` | main.py:71-77 | the double-opt-in text; it has no contract of its own, and its nine-line layout with the link on the fourth line is stated by `OptInBodyLines` |
| `Notify.OptInBodyLines` | main.py:71-77 | the opt-in text is nine lines, with the link alone on the fourth |
| `Notify.DoubleOptInMail` | main.py:67-78 | the opt-in mail goes to `to_email` with the fixed subject; its body splits into the nine lines around the link built from the configured base and the token |
| `Notify.SendDoubleOptIn` | main.py:67-78 | the opt-in mail falls back to the console exactly when SMTP is not configured; the console record is the fallback text of the opt-in subject, the opt-in text around the link built from FRONTEND_URL and the token, and `to_email`; otherwise the SMTP message is exactly that subject and text, from `Sender`, to `to_email` |
| `UrlEncoding.QuotePlus` | main.py:69 | the escaped token consists only of letters, digits, `_.-~`, `%` and `+`, and is no shorter than the token |
| `UrlEncoding.UrlEncode` | main.py:69 | `urlencode({key: value})` holds no newline, `&` or `#`, is at least as long as key, `=` and value together, and is exactly `key=value` when both are URL-safe |
| `UrlEncoding.QuotePlusUnchangedIff` | main.py:69 | escaping leaves a value unchanged if and only if all of its characters are always-safe |
| `UrlEncoding.EscapedHasNoSeparator` | main.py:69 | an escaped value holds no newline, `&`, `=` or `#`, so the query is one parameter on one line |
| `Schema.Dump` | main.py:86 | the dumped lead has exactly the seven field keys |
| `Api.PendingRecord` | main.py:86-87 | the record has status `pending`, `confirm_token` equal to the token and `confirmed_at` None; its keys are the lead's keys plus those three; every other field is copied unchanged; the three overlay keys always win |
| `Api.PendingRecordKeepsLead` | main.py:86-88 | the stored record reads back as the submitted lead |
| `Api.DocumentStore.CreateDocument` | main.py:88 | on failure the store is unchanged and the error text is returned; on success the id is fresh and the store gains exactly that document |
| `Api.BackgroundTasks.AddTask` | main.py:91-92 | a task is appended at the end of the queue |
| `Api.CreateLead` | main.py:81-96 | on success exactly one document is added under a fresh id, holding the pending record of the lead with the token; exactly two tasks are queued, in order (the admin notice for the lead, then the opt-in mail to `lead.email` with that token); the response is `{success: True, id, double_opt_in: True}`. On store failure nothing is stored or queued, and the result is HTTP 500 with the error text as detail |
| `Api.RunTask` | main.py:91-92 | running a queued task falls back to the console exactly when SMTP is not configured; an admin task delivers the admin subject and summary of its lead to the admin address, and an opt-in task delivers the opt-in subject and the text around its token's link to its address, on the console and on the SMTP path alike |
| `Api.TaskMail` | main.py:91-92 | an admin task composes the admin subject, the summary of its lead and the admin address; an opt-in task composes the opt-in subject, the text around the link built from its token, and its own address |
| `Api.AdminTaskSummarisesStoredLead` | main.py:86-91 | the queued admin task mails the admin address, and its seven lines are those of the lead read back from the stored record |
| `Api.OptInTaskCarriesStoredToken` | main.py:85-92 | the queued opt-in task mails `lead.email`, and the link on its fourth line is built from the token the record stores |
| `Api.OptInTaskReachesLead` | main.py:67-78 | running the opt-in task addresses the lead: as the SMTP recipient (from `Sender`), or on the first line of the console record |
| `Api.ConfirmWaitlist` | main.py:99-104 | the answer is `{success: True, message: "Anmeldung bestätigt"}` for every token; the function takes no store, so it neither reads nor changes one |

## Left out

- The SMTP session (connect, STARTTLS, login, send; main.py:46-49) is network I/O. The model stops at the `SmtpSubmission` value handed to it.
- Building the `EmailMessage` (main.py:40-44) is not modelled either. Its header check raises `ValueError` on a subject or recipient with a line break, and `set_content` appends a line separator to the body. `SmtpSubmission` carries the four fields unchanged.
- The console write itself is I/O. `print` adds one newline after `Mail.FallbackText`.
- `secrets.token_urlsafe(32)` (main.py:85) is entropy from a cryptographic library. The token is a parameter of `CreateLead`.
- `create_document` and the `database` module (main.py:10, 88) are not part of this model. The store is a map with a counter that gives fresh ids, and a failure is a parameter of the call.
- `schemas.Lead` is not part of this model. The lead is a record of the seven fields `main.py` reads. Any consent check in the schema is not modelled.
- `int(os.getenv("SMTP_PORT", "587"))` (main.py:30) is parsing. The port is kept as the environment text. So the model does not show that a non-numeric SMTP_PORT raises before the fallback check.
- Background-task execution, timing and errors are concurrency. Only the queued sequence and what each task would hand to the transport are modelled.
- The double-opt-in state machine is not in the code (main.py:101-103). Its at-most-once, concurrency-safe confirmation is therefore not modelled.
- UTF-8 encoding errors are left out. Python strings may hold lone surrogates, which `urlencode` rejects; Dafny characters exclude them.
- The FastAPI app and CORS setup (main.py:13-21), the root route (main.py:23-25), the `/test` database probe (main.py:107-144) and the uvicorn start-up (main.py:147-150) are framework, diagnostic and I/O code.
- `Notify.ConfirmUrlSingleLine`, `Notify.AdminBodyLines`, `Mail.FallbackTextLines`: the line layouts assume the inserted values have no newline. A field with a newline adds lines, as it would in the source.
- `Api.CreateLead`: only the store can fail. `token_urlsafe`, `model_dump` and `add_task` sit inside the same `try` (main.py:83-96), but they are taken not to raise.
