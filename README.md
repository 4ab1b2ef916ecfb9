# LeadAIBot outreach core, modelled in Dafny

LeadAIBot is a small FastAPI service. A `POST /fetch-leads/` request names a job title and a location. The service:

- walks the rows of `leads.csv`;
- picks the rows whose job title and location match the request case-insensitively and whose phone number is not in its sqlite ledger (`leads.db`) yet;
- sends each such lead a WhatsApp greeting by driving WhatsApp Web in a browser;
- records every lead whose send returned True.

It answers with the leads whose send returned True, or with a 404 "No new leads found" when there are none.

The model has six modules:

- `Ledger` (ledger.dfy) is the ledger of db.py. The class `LeadStore` holds the `leads` table as a map keyed by phone number. Its methods are `InitDb`, `SaveLead` (insert-or-ignore, always `requestSent = 0`) and `IsMessageSent` (membership).
- `Url` (url.dfy) builds the deep link of send_whatsapp.py, lines 67-72:
  - `lstrip('+')` on the phone number;
  - `quote_plus` on the message. This is UTF-8 encoding (`Utf8`, utf8.dfy), then percent-encoding of every byte that is not an unreserved character of section 2.3 of RFC 3986, as section 2.1 of RFC 3986 describes it. Space is written as `+`, as HTML form encoding does.
  - Its partners are a decoder `UnquotePlus` and a query parser `Params`.
- `WhatsApp` (whatsapp.dfy) models `send_whatsapp_message` and `_ensure_logged_in` as a sequence of browser steps.
  - Each step stands for one source line and may raise. Which steps raise in the k-th call is a parameter of the class `Messenger` (a fault plan); the browser itself is not modelled.
  - `Messenger.SendWhatsAppMessage` is imperative and is proved equal to the block-by-block function `SendRun`. `SendRun` is proved equal to a flat reference description, `Reference`: enter the driver, go along the path until the first step that raises out of it, leave the driver.
  - The properties of a call are proved about `Reference`: when it returns True, what it did before, and when whatsapp_state.json is written.
- `Api` (api.dfy) models `fetch_leads` as the method `FetchLeads`.
  - Its loop over the rows is proved against the function `ScanRows`. `ScanRows` takes the sequence of send outcomes as a parameter, so its properties hold for every behaviour of the sender.
  - Those properties are proved as lemmas: who is contacted, sent to with success at most once per `phone_number` value, the ledger key (a send that returned False does not stop a later one), the ledger grown only on success, results in input order, and the 404.
- `Wrappers` (wrappers.dfy) holds `Option`.

## Model

| member | source | states |
|---|---|---|
| Ledger.InsertOrIgnore | db.py:21-24 | The keys grow by exactly the row's phone number. A present key leaves the table unchanged. An absent key gets the row with `requestSent = 0`. Every other entry is unchanged. |
| Ledger.Fresh | db.py:24 | A saved lead always has `requestSent = 0`, whatever the input row. |
| Ledger.InsertOrIgnoreIdempotent | db.py:11 | Saving a second row with the same phone number (the PRIMARY KEY) changes nothing. |
| Ledger.LeadStore.constructor | db.py:3-16 | Opening leads.db: it has the `leads` table exactly when one was on disk, and then holds its rows. |
| Ledger.LeadStore.InitDb | db.py:3-16 | After `init_db` the table exists, and an existing table keeps every row. |
| Ledger.LeadStore.SaveLead | db.py:18-26 | `save_lead` replaces the table by the insert-or-ignore of the row. |
| Ledger.LeadStore.IsMessageSent | db.py:28-34 | True exactly when a row with that phone number exists, whatever its `requestSent`. The table is not modified. |
| Ledger.InitDbIdempotent | db.py:6-14 | `init_db` twice leaves the table as it was and created. |
| Ledger.SaveThenCheck | db.py:18-34 | After `save_lead(row)`, `is_message_sent` reports the row's phone number. |
| Url.LStripPlus | send_whatsapp.py:69 | Removes every leading `+`, not just one. The result is a suffix of the input that does not start with `+`. |
| Utf8.EncodeChar | send_whatsapp.py:70 | A character is one to four bytes. It is one byte exactly for ASCII, and that byte is its code. All bytes after the first are continuation bytes. |
| Utf8.DecodeEncode | send_whatsapp.py:70 | Strict UTF-8 decoding gives back every string that was encoded. |
| Url.QuotePlusRoundTrip | send_whatsapp.py:70 | Decoding the `text` value (`+` to space, `%XX` to bytes, UTF-8) gives back the message exactly. |
| Url.QuotePlusIsQuerySafe | send_whatsapp.py:70 | The encoded message has only unreserved characters, `+` and `%XX` triplets with upper-case hex digits. So it has no `&`, `=`, `#` or space. |
| Url.DeepLinkParams | send_whatsapp.py:67-72 | For a phone number without `&` or `#`, the link's query has exactly three parameters, in order: `phone` = the stripped number, `text` = the encoded message, `app_absent` = `0`. The text decodes to the message. |
| WhatsApp.SendRunIsReference | send_whatsapp.py:24-91 | The block-by-block run of a call equals the reference description: enter the driver, go along the path until the first step that raises out of it, leave the driver. |
| WhatsApp.LoggedInFollowsPath | send_whatsapp.py:24-44 | `_ensure_logged_in` goes along its login path from any state: the home page, the probe, and the pairing wait only if the probe raised. A raising probe is caught. |
| WhatsApp.SentIffNothingRaised | send_whatsapp.py:53-91 | A call returns True exactly when no step on its path raises, covering starting and leaving the driver. |
| WhatsApp.CallFollowsPath | send_whatsapp.py:53-91 | The driver is started first. Then the call performs a prefix of its path where nothing before the last step raised, and leaves the driver. On a `False` the last step attempted raised, unless leaving the driver did. On a `True` the whole path ran. |
| WhatsApp.DriverReleasedOnce | send_whatsapp.py:54 | The driver is started once and first. Whenever it started, it is stopped once and last; if starting raised, it is never stopped. |
| WhatsApp.SentMeansDelivered | send_whatsapp.py:73-87 | A call that returned True loaded the deep link, pressed Enter without an exception, then wrote whatsapp_state.json (line 83) without an exception, and left that file in place. |
| WhatsApp.DeliveredYetFalse | send_whatsapp.py:54-91 | The converse fails: when only the pause, the session refresh, closing the browser or leaving the `with` block raises, the call loaded the deep link and pressed Enter, yet returns False. |
| WhatsApp.ContextFromState | send_whatsapp.py:58-61 | The browser context is created from the saved session exactly when whatsapp_state.json existed at the start of the call. |
| WhatsApp.NextCallReusesSession | send_whatsapp.py:58-61 | After a call that returned True, any later call whose driver and browser start creates its context from the saved session. |
| WhatsApp.FastPathSkipsPairing | send_whatsapp.py:33-36 | When the probe finds the search box and closes its page, the call never waits for QR pairing and never saves the session from `_ensure_logged_in`. |
| WhatsApp.PairingAfterFailedProbe | send_whatsapp.py:33-44 | The pairing wait is reached exactly when the probe (the wait or the close of its page) raised and nothing before it raised. The session is saved from it exactly when the wait succeeded. |
| WhatsApp.Messenger.constructor | send_whatsapp.py:21 | A sender starts with no calls, a fault plan, and whether whatsapp_state.json exists. |
| WhatsApp.Messenger.Perform | send_whatsapp.py:29-84 | Each step is appended to the trace and raises exactly when the plan says so. Only a session write that did not raise creates whatsapp_state.json. |
| WhatsApp.Messenger.EnsureLoggedIn | send_whatsapp.py:24-44 | The imperative `_ensure_logged_in` does exactly what `LoggedIn` describes, and it keeps the session file in step with the trace. |
| WhatsApp.Messenger.SendInChat | send_whatsapp.py:65-84 | Opening the chat, loading the link, waiting for the panel, pressing Enter, pausing, refreshing the session and closing the browser, stopping at the first exception. |
| WhatsApp.Messenger.SendWhatsAppMessage | send_whatsapp.py:47-91 | Returns `not raised` of `SendRun`, leaves its trace, sets whatsapp_state.json as the successful writes say, and appends the call to the record. |
| Api.Lower | main.py:23-24 | Lower-casing keeps the length and maps each character on its own. |
| Api.MessageText | main.py:27 | The message is the greeting, the row's job title as written, " in ", the row's location as written, and ")!". |
| Api.Respond | main.py:32-35 | An empty result is the HTTP error 404 "No new leads found"; otherwise the answer is exactly the results. |
| Api.ScanLedger | main.py:28-29 | The final ledger holds the starting entries unchanged plus exactly the phone numbers sent with success. Each of those maps to its row with `requestSent = 0`. |
| Api.SentToIff | main.py:23-30 | A row is sent to exactly when it matches after lower-casing and its phone number is neither in the starting ledger nor among the earlier rows sent with success. It is recorded exactly when that send returned True. |
| Api.KnownPhonesNotContacted | main.py:25 | A phone number already in the ledger when the call starts is never sent to. |
| Api.AtMostOncePerPhone | main.py:25-30 | After a send to a phone number succeeded, every later row with that number is skipped, so each `phone_number` value (the ledger key) is sent to with success at most once. |
| Api.PlusSpellingsBothSent | main.py:25-30 | The ledger key is the `phone_number` text while the link strips its leading `+`: two matching rows spelling one number with and without `+` are both sent to with success, each greeting going to the same link. |
| Api.ResentAfterFalse | main.py:25-30 | A send that returned False does not record the number: a second matching row with the same fresh number is sent to again, and recorded only if that send succeeds. |
| Api.PickInRows | main.py:22 | The rows picked are a subsequence of all rows. |
| Api.ResultsInOrder | main.py:22-30 | The results are a subsequence of the rows sent to, which are a subsequence of the input, all in input order. |
| Api.Visit | main.py:23-30 | For a row that matches and is not in the ledger, the greeting is sent once, the row is recorded exactly when the send returned True, and whatsapp_state.json is as that call left it. Any other row changes nothing. A send that returned True leaves whatsapp_state.json in place, and an existing file is never removed. |
| Api.FetchLeads | main.py:17-35 | The ledger ends as the scan's ledger. The messages sent are, in order, the greetings of the rows the scan sends to. The sender's earlier calls are kept. The answer is `Respond` of the rows sent with success. An existing whatsapp_state.json stays, and an answer with leads means the file exists. |

## Left out

- Playwright is not modelled. Launching, navigation, selector waits and their 8 s, 20 s and unbounded timeouts, the key press and closing are each an abstract step that may raise (the fault plan). Their effects on the browser are not modelled.
- A step that never returns is not modelled. The pairing wait (send_whatsapp.py:40) has `timeout=0`, so while no QR code is scanned it blocks forever, and so do the call and the request. The call lemmas are about calls that return.
- `sleep(uniform(1.5, 2.5))` is the step `Pause`, which may raise. The random duration is not modelled.
- Exception classes are not distinguished. `_ensure_logged_in` has a bare `except` and `send_whatsapp_message` has `except Exception`. The model treats every exception as caught by both.
- A raising `context.storage_state(...)` is modelled as writing nothing. A partly written file is not modelled.
- `Path(STORAGE_STATE).exists()` is read from the messenger's `sessionStored`. Other processes touching the file are not modelled.
- Concurrent requests are not modelled. FastAPI runs the plain `def` endpoint `fetch_leads` (main.py:17-18) on a threadpool, so two requests can interleave between `is_message_sent` (main.py:25) and `save_lead` (main.py:29) and both message one number; both also write whatsapp_state.json. The ledger and at-most-once properties (`Api.FetchLeads`, `Api.SentToIff`, `Api.KnownPhonesNotContacted`, `Api.AtMostOncePerPhone`) hold within one request, and across requests served one after another.
- FastAPI routing, pydantic validation and the startup hook are not modelled. `HTTPException` is reduced to a status and a detail.
- Opening `leads.csv` and `csv.DictReader` are not modelled. The rows are a given sequence of records with the four columns the program reads. A missing column (a `KeyError`) is not modelled.
- sqlite connections, commits, durability and atomicity are not modelled. The table is a map.
- Ledger.LeadStore.SaveLead and Ledger.LeadStore.IsMessageSent require the `leads` table to exist. The startup hook always runs `init_db` first; the sqlite error for a missing table is not modelled.
- Api.Lower: Python's Unicode `str.lower()` is modelled as ASCII lower-casing. Non-ASCII letters are not case-folded.
- `print` logging is not modelled.
- The ledger is keyed by the raw `phone_number` text, while the deep link strips leading `+` (send_whatsapp.py:69). Spellings of one number that differ only in leading `+` are distinct keys, so one recipient is greeted once per spelling (`Api.PlusSpellingsBothSent`). The model keeps this behaviour; it promises at most one successful send per `phone_number` value, not per recipient.
- A send whose only raising step comes after the Enter press (the pause, the session refresh, closing the browser, leaving the `with` block) returns False although the message may have been delivered. The lead is then not saved and a later row with that number is messaged again. The model keeps this behaviour (`WhatsApp.DeliveredYetFalse`, `Api.ResentAfterFalse`); whether WhatsApp delivered the message is not modelled.
- Api.Visit: states each call's phone number, message, outcome and the session file, but not the call's step trace, which `WhatsApp.Messenger.SendWhatsAppMessage` states.
- Api.FetchLeads: the outcome of each send is whatever the sender returned. Its contract is stated over those outcomes and does not restate the sender's fault plan.
- Url.UnquotePlus is a strict decoder, the partner of `QuotePlus`. Python's `unquote_plus` fallbacks for malformed input (replacement characters) are not modelled.
- Url.DeepLinkParams requires a phone number without `&` or `#`. The source does not encode the phone number, and such a number would break the query.
- A Dafny `char` is a Unicode scalar value. Python strings holding lone surrogates, for which `quote_plus` raises, are outside the model.
