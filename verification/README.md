# go-mailing-service: request resolution and status mapping

A Dafny model of the core of a small Go HTTP service that relays email
through an SMTP server. `POST /api/send` takes a JSON body with
`recipients`, `subject` and `message`. The handler decodes it and calls
`sendEmail`. `sendEmail` fills missing fields from the environment and makes
one `smtp.SendMail` call. The handler answers 400 or 200.

The model covers the part of that flow that is plain computation:

- `go_strings.dfy` (module `GoStrings`): Go's `strings.Split` with a
  one-character separator, which is what the service uses on recipient
  strings. Empty pieces are kept, `""` splits to `[""]` and nothing is
  trimmed. `Join` is the reference inverse that says what a split means.
- `mailer.dfy` (module `Mailer`): the environment as a `Settings` value, the
  decoded `Request`, and everything `sendEmail` hands to the relay as a
  `Submission`. That covers the relay address, the `PlainAuth` arguments, the
  sender, the recipient list and the message. `Resolve` is the whole
  resolution step. `SendEmail` makes one relay call and returns its outcome.
- `send_api.dfy` (module `SendApi`): the `/api/send` handler's decision
  between 400 and 200. The relay is a function parameter and body decoding is
  a `Parsed` value.

The environment variables `EMAIL_FROM`, `EMAIL_PASSWORD`, `EMAIL_RECIPIENT`,
`EMAIL_SUBJECT`, `SMTP_HOST` and `SMTP_PORT` are fields of `Settings`. The
SMTP exchange is a parameter `relay: Submission -> SendResult`. JSON decoding
is the `Parsed` datatype (`ParseError` or `Decoded(req)`). Go strings are
byte strings and Dafny strings are sequences of `char`. Nothing here depends
on the encoding, so `[]byte(subject + messageBody)` is modelled as the string
itself.

Three behaviours of the code are worth knowing:

- `strings.Split` filters nothing. So `"a,,b"` gives three recipients,
  including an empty one, and blank entries keep their spaces. An empty
  request with an empty `EMAIL_RECIPIENT` gives the list `[""]`
  (`NoRecipientsGiveOneEmptyAddress`).
- `"Subject: %v\n"` ends the built subject line in a newline. Subject `Hi`
  and body `Body` give the message `"Subject: Hi\nBody"`
  (`ExplicitMessageScenario`).
- The requested subject is not checked for line breaks. A subject that
  contains a newline ends the header line early, and the rest of the subject
  becomes further header text (`NewlineInSubjectEndsHeaderEarly`).

## Model

| member | source | states |
|---|---|---|
| `GoStrings.Split` | main.go:94 | splitting on a separator gives at least one piece, and no piece contains the separator |
| `GoStrings.JoinSplit` | main.go:94 | joining the pieces of a split with the separator gives back the original string |
| `GoStrings.SplitJoin` | main.go:92 | splitting a join of a non-empty list of separator-free pieces gives back that list, so the split is the only such decomposition |
| `GoStrings.SplitCount` | main.go:94 | a split has exactly one more piece than the string has separators |
| `GoStrings.SplitEmpty` | main.go:92 | the empty string splits to one empty piece |
| `GoStrings.SplitKeepsEmptyPieces` | main.go:94 | `"a,,b"` splits to `["a", "", "b"]`, so empty entries are kept |
| `GoStrings.SplitKeepsSpaces` | main.go:94 | spaces around commas stay in the entries |
| `Mailer.RecipientList` | main.go:90-95 | the list joined with commas is the request's recipient string, or the default when the request's is empty; no entry holds a comma; there are commas + 1 entries |
| `Mailer.RecipientsFromDefault` | main.go:91-92 | with no requested recipients the list is exactly the default setting split on commas |
| `Mailer.RecipientsFromRequest` | main.go:93-94 | with requested recipients the list is exactly their split on commas, and the same under any other settings |
| `Mailer.RequestedAddressesInOrder` | main.go:93-94 | N comma-free addresses joined by commas come out as exactly those N addresses, in order |
| `Mailer.NoRecipientsGiveOneEmptyAddress` | main.go:91-92 | with no recipients in the request or the settings, the list is one empty address, because nothing is filtered |
| `Mailer.SubjectLine` | main.go:103-108 | with no requested subject the line is the default setting verbatim; otherwise it is `Subject: `, then the subject, then a newline |
| `Mailer.SubjectRoundTrip` | main.go:107 | a requested subject can be read back from the header line built for it |
| `Mailer.Message` | main.go:110 | the message has the subject line as its prefix and the body as the rest, with nothing in between |
| `Mailer.RequestedSubjectMessage` | main.go:106-110 | with a requested subject S, the message is `Subject: ` + S + newline + body |
| `Mailer.DefaultSubjectMessage` | main.go:104-110 | with no requested subject, the message is the default subject setting followed directly by the body |
| `Mailer.SubjectIsFirstLine` | main.go:107-110 | a requested subject without a newline is exactly the first line of the message |
| `Mailer.SubjectNewlineEndsFirstLine` | main.go:107-110 | when a subject is `a` + newline + `b` and `a` holds no newline, the message built from it has `Subject: ` + `a` + newline as its first line |
| `Mailer.NewlineInSubjectEndsHeaderEarly` | main.go:107-110 | for a subject `a` + newline + `b` with no newline in `a`, the message's first line is `Subject: ` + `a` + newline, which differs from the built header line |
| `Mailer.RelayAddress` | main.go:98-100 | the address is the host, a colon, then the port: host as prefix and port as suffix |
| `Mailer.AddressRoundTrip` | main.go:100 | reading the address back at its last colon gives the host and the port, when the port holds no colon |
| `Mailer.Resolve` | main.go:84-116 | the recipients join with commas to the chosen recipient string, hold no comma and number its commas + 1; the message is the subject line followed by the body; the address is host, colon, port; the sender is `EMAIL_FROM`; PLAIN auth uses an empty identity, `EMAIL_FROM`, `EMAIL_PASSWORD` and the host |
| `Mailer.ExplicitRecipientsScenario` | main.go:93-94 | `"a@x.com,b@x.com"` gives the recipients `["a@x.com", "b@x.com"]` |
| `Mailer.ExplicitMessageScenario` | main.go:106-110 | subject `Hi` and body `Body` give the message `"Subject: Hi\nBody"` |
| `Mailer.DefaultsOnly` | main.go:91-110 | an empty request with one comma-free default address gives exactly that address, and the default subject setting verbatim followed by the body |
| `Mailer.SendEmail` | main.go:113-121 | exactly one submission, the resolved one, is handed to the relay, and the relay's outcome is what the call returns |
| `SendApi.HandleSend` | main.go:59-75 | a decode failure gives 400 with no submission; otherwise exactly one submission, the resolved one, is handed to the relay, and the status is 200 if and only if the relay delivers it, 400 otherwise |
| `SendApi.FailuresLookAlike` | main.go:63-73 | a relay error and a decode error give the caller the same status |

## Left out

- Fiber app construction, CORS, request logging, the `GET /` health route and `app.Listen` (main.go:36-43, main.go:78) are framework wiring and network I/O.
- The rate limiter (main.go:47-56) is left out. Its counting and expiry live in the fiber `limiter` package, which is not part of this model. It is also shared state under concurrent requests.
- `.env` loading and `os.Getenv` (main.go:26-33 and the reads in `sendEmail`) are process-environment I/O. They are replaced by the `Settings` parameter.
- `smtp.SendMail` (main.go:116) is a network exchange inside the Go standard library. The model records its arguments in a `Submission` and treats the send as an abstract `SendResult`. `smtp.PlainAuth` (main.go:113) only builds a credential value, and the model records its arguments as a `PlainAuth` value. What the library does with that value is not part of this model.
- `c.BodyParser` (main.go:63) is JSON decoding in the framework. It is modelled only as `Parsed`, success or failure.
- `fmt.Println` error logging (main.go:64, main.go:71) is a side effect only.
- The relay error's cause is carried in `SendResult` and not modelled further. The handler never sends it to the caller. It only logs it (main.go:71), and logging is left out.
