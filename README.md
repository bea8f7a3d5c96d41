# mailtrap-go, modelled in Dafny

This project models the core of mailtrap-go, the Go client library for the
Mailtrap email sending and email testing APIs. It has three parts.

- **Transport** (`transport.dfy`). This is the lower-case `client` record of
  `mailtrap/mailtrap.go`, modelled as a class.
  - It has an API key, a user agent, a host and a mutable base path. The
    sending base and the testing base are "/api" on their own hosts.
  - `NewRequest` joins the base path and the resource path, and writes the
    result back into the client. It attaches a body only to methods other
    than GET, HEAD and OPTIONS. It sets Content-Type when a payload is
    given, and always sets Accept, User-Agent and a Bearer Authorization
    header.
  - `checkResponse` turns a non-2xx reply into an `ErrorResponse`.
  - `decode` either copies the body into a string, JSON-decodes it into a
    typed value, or fails with "decode() undefined response type".
  - `Do` chains the round trip, `checkResponse` and `decode`.
  - `Perform` and `Client.Invoke` give the whole run of a service method:
    NewRequest, the Accept override, Do, and the zero value on error.
- **Email validation** (`email.dfy`, `send.dfy`). These model the sending
  request and its rules.
  - `validate` checks its rules in a fixed order, from the sender to the
    category length.
  - Within the attachment rule, the problems of all attachments are
    collected and joined with "; ".
  - `Send` stops on a nil or invalid request before anything is built.
    Otherwise it POSTs to `/send`.
- **Service route tables**. There is one module per service:
  `messages.dfy`, `inboxes.dfy`, `projects.dfy`, `permissions.dfy`,
  `account_users.dfy`, `attachments.dfy` and `accounts.dfy`.
  - Each public method is a function from IDs to a `Call`. A `Call` holds
    the HTTP method, the path, the payload, an Accept override and the
    decode destination.
  - The path is the source's `fmt.Sprintf` template with each `%d` replaced
    by the decimal form of the ID.
  - Lemmas prove that every route path gives its IDs back. Others prove
    what the transport makes of each call, such as a payload sent with a
    GET that never leaves the client.

`common.dfy` holds the Go library behaviour these parts rely on:
- the decimal rendering of `%d` and its parser;
- a model of `fmt.Sprintf` for templates with `%d` verbs;
- `strings.Join`.

The model treats these as parameters rather than modelling them:
- encoding/json is a record of functions (`Transport.Json`);
- the HTTP round trip is a function from request to transmission;
- `mail.ParseAddress` is a predicate on the address;
- the user agent string is a constructor argument.

## Model

| member | source | states |
|---|---|---|
| Common.IntStringRoundTrip | mailtrap/projects.go:46 | the decimal text `%d` produces for an ID, sign included, parses back to that ID |
| Common.IntStringInjective | mailtrap/projects.go:65 | different IDs render to different `%d` text |
| Common.SprintfFills | mailtrap/inboxes.go:9-18 | filling a template made of literal parts and `%d` verbs with `fmt.Sprintf` gives the parts interleaved with the decimal IDs; the template has exactly one verb per argument |
| Common.FormatInjective | mailtrap/inboxes.go:9-18 | when every literal part after the first starts with a non-digit and only the last may be empty, the filled path determines its IDs |
| Transport.StandardHeaders | mailtrap/mailtrap.go:189-194 | the header set is exactly Accept, User-Agent, Authorization, plus Content-Type when there is a payload; Accept is application/json, User-Agent is the client's, Authorization is "Bearer " followed by the API key |
| Transport.RequestTo | mailtrap/mailtrap.go:160-197 | request building fails exactly when a method that carries a body has a payload the encoder rejects; GET, HEAD and OPTIONS get no body; other methods get an empty buffer for a nil payload and the encoding otherwise; Content-Type is present exactly when a payload is given, whatever the method |
| Transport.Client.NewRequest | mailtrap/mailtrap.go:160-197 | the client's base path becomes the old base path followed by the request path, and the request is the one RequestTo gives for that joined URL |
| Transport.Client.Sending | mailtrap/mailtrap.go:63-80 | a sending client has host send.api.mailtrap.io and base path "/api" |
| Transport.Client.Testing | mailtrap/mailtrap.go:83-109 | a testing client has host mailtrap.io and base path "/api" |
| Transport.Classify | mailtrap/mailtrap.go:207-221 | no error exactly for a 2xx status; otherwise the error keeps the response; an empty body gives an empty message and no errors; a body that does not parse as JSON becomes the message; a body that parses supplies message and errors |
| Transport.CheckResponse | mailtrap/mailtrap.go:207-221 | the step-by-step construction of the error record yields Classify's verdict |
| Transport.Decoding | mailtrap/mailtrap.go:137-157 | a nil body writes nothing and succeeds; a string destination receives the body verbatim whatever the Accept header; a typed destination is decoded exactly when Accept is application/json and the decoder accepts the body; a body the decoder rejects fails with the decoder's error and writes nothing; a nil destination or a typed one under another Accept header fails with "decode() undefined response type" and writes nothing |
| Transport.Client.Decode | mailtrap/mailtrap.go:137-157 | the imperative decode writes and returns what Decoding specifies |
| Transport.Exchange | mailtrap/mailtrap.go:111-135 | a transport failure gives a nil response and that error; a non-2xx reply gives the response and an API error with nothing decoded; a nil destination skips decoding; success means a delivered 2xx reply; a string destination on success holds the body; a non-2xx error is exactly checkResponse's classification of the reply; a 2xx reply for a non-nil destination gives exactly decode's value and error for the body and the request's Accept header |
| Transport.Client.Do | mailtrap/mailtrap.go:111-135 | the imperative Do returns Exchange's outcome for the server's transmission |
| Transport.Prepared | mailtrap/messages.go:245-250 | the request is built exactly unless a method that carries a body has a payload the encoder rejects, and then fails with the encoder's error; the built request carries the call's method and URL, no body for GET, HEAD and OPTIONS, an empty buffer for a nil payload and the encoding otherwise, the call's Accept override or application/json, the client's User-Agent, the Bearer authorization, and Content-Type exactly when the call has a payload |
| Transport.Perform | mailtrap/projects.go:45-59 | on any error the service returns the zero value (nil, or "" for a string); a response is returned only when the prepared request was delivered and is exactly the server's reply; no error means a 2xx response; decoded values come from the response body and a JSON Accept header; a nil destination yields nil; a request that cannot be prepared gives the zero value, no response and that error; a prepared request gives Do's response and error, and Do's value when there is no error |
| Transport.Client.Invoke | mailtrap/projects.go:47-58 | one service call appends its path to the client's base path and returns Perform's outcome for the joined URL |
| Email.Validate | mailtrap/send_email.go:126-169 | the loops of validate return exactly ValidationError: the first failing rule's message, or none |
| Email.ValidIff | mailtrap/send_email.go:126-169 | validation succeeds exactly when the sender email is set, the recipient list is non-empty with every email set, every attachment has content and a filename, the subject is set, text or HTML is set, and the category is at most 255 bytes |
| Email.AttachmentProblemsIn | mailtrap/send_email.go:140-149 | a message is among the collected attachment problems exactly when some attachment reports it |
| Email.AttachmentProblemsBound | mailtrap/send_email.go:142-149 | each attachment adds at most two problems |
| Email.AttachmentProblemsExact | mailtrap/send_email.go:140-153 | the collected problems are only the content and filename messages; the content message appears exactly when some attachment lacks content, the filename message exactly when some attachment lacks a filename |
| Email.AttachmentProblemsNone | mailtrap/send_email.go:140-153 | no problem is collected exactly when every attachment is complete |
| Email.AttachmentProblemsAppend | mailtrap/send_email.go:142-149 | problems are reported attachment by attachment, earlier attachments first |
| Email.AttachmentMissingBoth | mailtrap/send_email.go:140-152 | one attachment missing both fields is reported as the content message, "; ", then the filename message |
| Email.AttachmentBeforeSubject | mailtrap/send_email.go:140-161 | an incomplete attachment is reported even when the subject and both bodies are missing |
| Email.JoinPrefix | mailtrap/send_email.go:151 | the joined attachment message starts with the first problem |
| Email.UncheckedFields | mailtrap/send_email.go:126-169 | copies, blind copies, headers and custom variables never change the verdict |
| Email.CategoryLimit | mailtrap/send_email.go:163-166 | a category of at most 255 bytes passes, a longer one fails with the category message |
| Email.CategoryMessage | mailtrap/send_email.go:165 | the category message reads "'category' is greater than 255 chars" |
| Email.CategoryTemplate | mailtrap/send_email.go:165 | the category message is `fmt.Errorf`'s template with one `%d` filled with the limit |
| Sending.SendCall | mailtrap/send_email.go:102-111 | a nil request fails with the mandatory-request message; a request proceeds exactly when it is sendable, else fails with its validation message; a sendable request becomes a POST to /send with the request as payload, decoded into SendEmailResponse |
| Sending.Send | mailtrap/send_email.go:102-123 | a nil or invalid request returns no value, no response and the error, leaving the client untouched; a valid one appends /send to the base path and returns the transport's outcome |
| Sending.SendRequest | mailtrap/send_email.go:111-117 | a valid send puts a POST on the wire whose body is the request's JSON, with Content-Type and Accept application/json |
| Sending.SendTwice | mailtrap/mailtrap.go:161-162 | because the base path is written back, two sends on a fresh sending client go to /api/send and then /api/send/send |
| Messages.List | mailtrap/messages.go:82-96 | GET /accounts/{a}/inboxes/{i}/messages, no payload, decoded into a message list |
| Messages.Get | mailtrap/messages.go:101-115 | GET /accounts/{a}/inboxes/{i}/messages/{m}, decoded into a message |
| Messages.Update | mailtrap/messages.go:124-145 | PATCH on the message path with the request wrapped as {"message": ...}, always a payload, decoded into a message |
| Messages.Delete | mailtrap/messages.go:150-158 | DELETE on the message path with no decode target |
| Messages.Forward | mailtrap/messages.go:168-183 | an address that does not parse fails with "Forward 'email' is invalid." and builds nothing; otherwise a POST of {email} to .../messages/{m}/forward with no decode target |
| Messages.SpamReport | mailtrap/messages.go:188-202 | GET .../messages/{m}/spam_report decoded into a spam report |
| Messages.AsRaw | mailtrap/messages.go:207-210 | GET .../body.raw with Accept text/plain, captured as a string |
| Messages.AsText | mailtrap/messages.go:215-218 | GET .../body.txt with Accept text/plain, captured as a string |
| Messages.AsHTML | mailtrap/messages.go:223-226 | GET .../body.html with Accept text/html, captured as a string |
| Messages.AsHTMLSource | mailtrap/messages.go:231-234 | GET .../body.htmlsource with Accept text/html, captured as a string |
| Messages.AsEML | mailtrap/messages.go:239-242 | GET .../body.eml with Accept message/rfc822, captured as a string |
| Messages.MakeRequest | mailtrap/messages.go:244-259 | the body request appends its endpoint to the base path and returns the transport's outcome as (text, response, error) |
| Messages.ForwardMessage | mailtrap/messages.go:168-183 | a rejected address returns no response and the error, leaving the client untouched; otherwise the forward call runs with nothing decoded |
| Messages.BodyVerbatim | mailtrap/messages.go:244-259 | a body endpoint yields the reply body verbatim on success and "" on error, from a request with no body, no Content-Type and the chosen Accept header; a request the server delivers with a 2xx status gives that body, the response and no error |
| Messages.ListIdentifies | mailtrap/messages.go:83 | equal list paths mean equal account and inbox IDs |
| Messages.RouteIdentifies | mailtrap/messages.go:102 | any route below a message gives its three IDs back |
| Messages.PathsIdentify | mailtrap/messages.go:101-242 | Get, Update, Delete, SpamReport and the five body routes give their IDs back |
| Messages.ForwardIdentifies | mailtrap/messages.go:176 | the forward path gives its IDs back |
| Inboxes.CreateInbox | mailtrap/inboxes.go:76-85 | GET /accounts/{a}/projects/{p}/inboxes, the second argument filling the project slot, with the {"inbox": {"name"}} payload |
| Inboxes.UpdateInbox | mailtrap/inboxes.go:95-102 | PATCH /accounts/{a}/inboxes/{i} with the request wrapped as {"inbox": ...}, always a payload |
| Inboxes.ListInboxes | mailtrap/inboxes.go:107-121 | GET /accounts/{a}/inboxes decoded into an inbox list |
| Inboxes.GetInbox | mailtrap/inboxes.go:126-129 | GET /accounts/{a}/inboxes/{i} decoded into an inbox |
| Inboxes.DeleteInbox | mailtrap/inboxes.go:134-142 | DELETE /accounts/{a}/inboxes/{i} with no decode target |
| Inboxes.CleanInbox | mailtrap/inboxes.go:147-150 | PATCH .../clean with no payload |
| Inboxes.MarkAsRead | mailtrap/inboxes.go:155-158 | PATCH .../all_read with no payload |
| Inboxes.ResetCredentials | mailtrap/inboxes.go:163-166 | PATCH .../reset_credentials with no payload |
| Inboxes.EnableEmail | mailtrap/inboxes.go:171-174 | PATCH .../toggle_email_username with no payload |
| Inboxes.ResetEmail | mailtrap/inboxes.go:179-182 | PATCH .../reset_email_username with no payload |
| Inboxes.MakeRequest | mailtrap/inboxes.go:184-197 | the call appends its endpoint to the base path; on error the inbox is nil, otherwise it is decoded from the response body |
| Inboxes.CreateInboxSendsNoBody | mailtrap/inboxes.go:76-85 | CreateInbox's payload is dropped because it goes with a GET, yet Content-Type is still application/json |
| Inboxes.ActionsSendEmptyBody | mailtrap/inboxes.go:147-182 | the five actions send an empty body and no Content-Type |
| Inboxes.RouteIdentifies | mailtrap/inboxes.go:10-17 | any route below an inbox gives its two IDs back |
| Inboxes.ListIdentifies | mailtrap/inboxes.go:9 | equal list paths mean equal account IDs |
| Inboxes.CreateIdentifies | mailtrap/inboxes.go:18 | equal create paths mean equal account and project IDs |
| Inboxes.PathsIdentify | mailtrap/inboxes.go:10-17 | get and the five action routes give their IDs back |
| Projects.List | mailtrap/projects.go:45-59 | GET /accounts/{a}/projects decoded into a project list |
| Projects.Get | mailtrap/projects.go:64-78 | GET /accounts/{a}/projects/{p} decoded into a project |
| Projects.Delete | mailtrap/projects.go:83-91 | DELETE /accounts/{a}/projects/{p} with no decode target |
| Projects.Update | mailtrap/projects.go:96-116 | PATCH /accounts/{a}/projects/{p} with {"project": {"name"}} |
| Projects.Create | mailtrap/projects.go:121-141 | POST /accounts/{a}/projects, the list path, with {"project": {"name"}} |
| Projects.NameIsSent | mailtrap/projects.go:36-40 | Create and Update put the encoded name payload on the wire with Content-Type application/json |
| Projects.PathsIdentify | mailtrap/projects.go:46-65 | list and project paths give their IDs back |
| Permissions.GetResources | mailtrap/permissions.go:66-79 | GET /accounts/{a}/permissions/resources decoded into a resource list |
| Permissions.ManagePermission | mailtrap/permissions.go:87-95 | GET /accounts/{a}/account_accesses/{u}/permissions/bulk with the {"permissions": ...} payload and no decode target |
| Permissions.ManagePermissionSendsNoBody | mailtrap/permissions.go:87-95 | the permissions never leave the client: no body, though Content-Type is application/json, and nothing is returned but the response |
| Permissions.PathsIdentify | mailtrap/permissions.go:8-11 | both paths give their IDs back |
| AccountUsers.ListAccountUsers | mailtrap/account_users.go:62-78 | GET /accounts/{a}/account_accesses with the filters as payload, even a nil one, decoded into a user list |
| AccountUsers.RemoveAccountUser | mailtrap/account_users.go:84-92 | DELETE /accounts/{a}/account_accesses/{u} with no decode target |
| AccountUsers.FiltersNeverSent | mailtrap/account_users.go:62-78 | whatever the filters, even nil, the same request goes out, with no body and with Content-Type set |
| AccountUsers.PathsIdentify | mailtrap/account_users.go:8-11 | both paths give their IDs back |
| Attachments.List | mailtrap/attachments.go:38-54 | GET /accounts/{a}/inboxes/{i}/messages/{m}/attachments decoded into a list |
| Attachments.Get | mailtrap/attachments.go:59-75 | GET .../attachments/{t}, IDs in the order account, inbox, message, attachment |
| Attachments.TransportFailureGivesNothing | mailtrap/attachments.go:59-75 | when the round trip fails, Get returns neither an attachment nor a response, only the transport error |
| Attachments.ListIdentifies | mailtrap/attachments.go:42 | the list path gives its three IDs back |
| Attachments.GetIdentifies | mailtrap/attachments.go:63 | the attachment path gives its four IDs back |
| Accounts.ListAccounts | mailtrap/accounts.go:30-43 | GET /accounts decoded into an account list |
| Accounts.ListAccountsRequest | mailtrap/accounts.go:30-43 | the request has no body and no Content-Type; on any error the list is nil |

## Left out

- HTTP execution: `httpClient.Do`, closing the body and read errors of `ioutil.ReadAll` are not modelled. The round trip is a function from request to transmission, and a reply is a status and the whole body.
- encoding/json: encoding, decoding and struct tags are function parameters. `Json.unmarshalError` stands for json.Unmarshal into an ErrorResponse.
- net/url: parsing and `URL.String()` are not modelled. A URL is a scheme, a host and a path. The failure of `http.NewRequest` on a bad URL cannot happen in the model.
- `mail.ParseAddress` is the predicate parameter `validAddress`.
- The user agent is built from runtime values, so it is a constructor argument.
- `ErrorResponse.Error()` formatting (mailtrap/errors.go:15-18) depends on Go's `%v` rendering; only the record is modelled.
- mailtrap/client.go is not part of this model. It is a stub whose `Do` and `NewRequest` return nil. Most service structs declare their client as this `*Client`; only `ProjectsService` (mailtrap/projects.go:18) declares the transport `*client`. `NewTestingClient` (mailtrap/mailtrap.go:100-106) hands its seven services the transport `client`, and the model runs every testing service on that transport.
- Sending.Send and Sending.SendTwice: `SendEmailService` declares a `*Client` (mailtrap/send_email.go:21-23) and no constructor creates one, because `SendingClient` (mailtrap/mailtrap.go:44-46) has no service field. The model assumes Send runs on the sending client's transport. Bound to the stub as written, a valid request would return an empty response and no error.
- Transport.Classify: error bodies are assumed to carry no "response" key. `ErrorResponse.Response` has no json tag (mailtrap/errors.go:9), so json.Unmarshal at mailtrap.go:214 would map such a key onto it. That could set the kept response to nil, or overwrite fields of the very response Do returns. The model keeps the reply unchanged.
- mailtrap/webhook.go (one JSON decode) is not part of this model. The examples directory (interactive programs) is not part of it either.
- Float and time fields of the reply records, and all reply record fields, are left out. They are data filled by the JSON decoder.
- Constraints that appear only in comments are not modelled as checks, because validate does not enforce them. These are the custom-variable size limit, the reserved headers and the disposition values.
- Integers are unbounded. Go `int` is 64 bits, but IDs are only rendered, never computed with.
- Strings and byte slices are both `string`, one char per byte. So a category's length is its byte length, as Go's `len` is.
- The code, not the tests, is followed where they disagree:
  - attachment problems are joined with "; " and have no trailing period;
  - the forward error reads "Forward 'email' is invalid.";
  - CreateInbox uses GET, so its payload is dropped;
  - ManagePermission uses GET, so its permissions are never sent.
- Transport.Client.NewRequest: writing the joined path back into the client is modelled as written. There is no corrected variant; Sending.SendTwice shows the effect.
