/**
 * The resolution step of `sendEmail`: how one send request and the configured
 * defaults become the arguments of the single SMTP submission (relay address,
 * PLAIN credentials, sender, recipient list and message bytes). The process
 * environment is replaced by an explicit `Settings` value.
 */
module Mailer {
  import opened GoStrings

  datatype Option<T> = None | Some(value: T)

  /** The environment values `sendEmail` reads. */
  datatype Settings = Settings(
    emailFrom: string,       // EMAIL_FROM
    emailPassword: string,   // EMAIL_PASSWORD
    emailRecipient: string,  // EMAIL_RECIPIENT, comma-separated
    emailSubject: string,    // EMAIL_SUBJECT, a complete header line
    smtpHost: string,        // SMTP_HOST
    smtpPort: string)        // SMTP_PORT

  /** The decoded JSON body of `POST /api/send`; absent fields are empty. */
  datatype Request = Request(recipients: string, subject: string, message: string)

  /** The arguments of `smtp.PlainAuth(identity, username, password, host)`. */
  datatype PlainAuth = PlainAuth(identity: string, username: string, password: string, host: string)

  /** The arguments of `smtp.SendMail(addr, auth, from, to, msg)`. */
  datatype Submission = Submission(
    address: string,
    auth: PlainAuth,
    from: string,
    to: seq<string>,
    msg: string)

  const Comma: char := ','
  const SubjectPrefix: string := "Subject: "

  /** The recipient string that is split: the request's, or the default when the request's is empty. */
  function RecipientSource(cfg: Settings, requested: string): (r: string)
  {
    if |requested| == 0 then cfg.emailRecipient else requested
  }

  /**
   * The recipient list: the chosen recipient string split on commas. Joining
   * it with commas gives the chosen string back, no entry holds a comma, and
   * there is one entry more than the string has commas (empty entries kept).
   */
  function RecipientList(cfg: Settings, requested: string): (r: seq<string>)
    ensures Join(r, Comma) == RecipientSource(cfg, requested)
    ensures forall k :: 0 <= k < |r| ==> Comma !in r[k]
    ensures |r| == multiset(RecipientSource(cfg, requested))[Comma] + 1
  {
    var source := RecipientSource(cfg, requested);
    JoinSplit(source, Comma);
    SplitCount(source, Comma);
    Split(source, Comma)
  }

  /**
   * The subject header line: the default setting verbatim when the request
   * has no subject, otherwise "Subject: ", the requested subject and a newline.
   */
  function SubjectLine(cfg: Settings, requested: string): (r: string)
    ensures |requested| == 0 ==> r == cfg.emailSubject
    ensures |requested| > 0 ==>
      |r| == |SubjectPrefix| + |requested| + 1 &&
      r[..|SubjectPrefix|] == SubjectPrefix &&
      r[|SubjectPrefix|..|r| - 1] == requested &&
      r[|r| - 1] == '\n'
  {
    if |requested| == 0 then cfg.emailSubject
    else SubjectPrefix + requested + "\n"
  }

  /** Reads the subject back out of a "Subject: ...\n" line, if it has that form. */
  function SubjectOf(line: string): (r: Option<string>)
  {
    if |line| > |SubjectPrefix| && line[..|SubjectPrefix|] == SubjectPrefix && line[|line| - 1] == '\n'
    then Some(line[|SubjectPrefix|..|line| - 1])
    else None
  }

  /** A requested subject can always be read back from the subject line built for it. */
  lemma SubjectRoundTrip(cfg: Settings, requested: string)
    requires |requested| > 0
    ensures SubjectOf(SubjectLine(cfg, requested)) == Some(requested)
  {
  }

  /** The message bytes: the subject line immediately followed by the body. */
  function Message(subjectLine: string, body: string): (r: string)
    ensures |r| == |subjectLine| + |body|
    ensures r[..|subjectLine|] == subjectLine
    ensures r[|subjectLine|..] == body
  {
    subjectLine + body
  }

  /** The relay address: host, a colon, port. */
  function RelayAddress(host: string, port: string): (r: string)
    ensures |r| == |host| + 1 + |port|
    ensures r[..|host|] == host && r[|host|] == ':' && r[|host| + 1..] == port
  {
    host + ":" + port
  }

  /** Splits an address at its last colon into host and port. */
  function HostPort(address: string): (r: Option<(string, string)>)
  {
    if ':' in address then
      var i := LastIndexOf(address, ':');
      Some((address[..i], address[i + 1..]))
    else None
  }

  /** A port without a colon is read back, with the host, from the relay address. */
  lemma AddressRoundTrip(host: string, port: string)
    requires ':' !in port
    ensures HostPort(RelayAddress(host, port)) == Some((host, port))
  {
    var a := RelayAddress(host, port);
    LastIndexOfIsLast(a, ':', |host|);
  }

  /** Everything `sendEmail` hands to `smtp.SendMail` for one request. */
  function Resolve(cfg: Settings, req: Request): (r: Submission)
    ensures Join(r.to, Comma) == RecipientSource(cfg, req.recipients)
    ensures forall k :: 0 <= k < |r.to| ==> Comma !in r.to[k]
    ensures |r.to| == multiset(RecipientSource(cfg, req.recipients))[Comma] + 1
    ensures |r.msg| == |SubjectLine(cfg, req.subject)| + |req.message|
    ensures r.msg[..|SubjectLine(cfg, req.subject)|] == SubjectLine(cfg, req.subject)
    ensures r.msg[|SubjectLine(cfg, req.subject)|..] == req.message
    ensures |r.address| == |cfg.smtpHost| + 1 + |cfg.smtpPort|
    ensures r.address[..|cfg.smtpHost|] == cfg.smtpHost
    ensures r.address[|cfg.smtpHost|] == ':'
    ensures r.address[|cfg.smtpHost| + 1..] == cfg.smtpPort
    ensures r.from == cfg.emailFrom
    ensures r.auth == PlainAuth("", cfg.emailFrom, cfg.emailPassword, cfg.smtpHost)
  {
    var address := RelayAddress(cfg.smtpHost, cfg.smtpPort);
    var to := RecipientList(cfg, req.recipients);
    var msg := Message(SubjectLine(cfg, req.subject), req.message);
    Submission(address, PlainAuth("", cfg.emailFrom, cfg.emailPassword, cfg.smtpHost), cfg.emailFrom, to, msg)
  }

  /** With no requested recipients, the list is the default setting split on commas, whatever else the request says. */
  lemma {:induction false} RecipientsFromDefault(cfg: Settings, req: Request)
    requires |req.recipients| == 0
    ensures Resolve(cfg, req).to == Split(cfg.emailRecipient, Comma)
  {
  }

  /** With requested recipients, the list is their split on commas, and the default setting plays no part. */
  lemma {:induction false} RecipientsFromRequest(cfg: Settings, cfg': Settings, req: Request)
    requires |req.recipients| > 0
    ensures Resolve(cfg, req).to == Split(req.recipients, Comma)
    ensures Resolve(cfg, req).to == Resolve(cfg', req).to
  {
  }

  /** Entries are not filtered: with no recipients anywhere, the list holds one empty address. */
  lemma NoRecipientsGiveOneEmptyAddress(cfg: Settings, req: Request)
    requires |req.recipients| == 0 && |cfg.emailRecipient| == 0
    ensures Resolve(cfg, req).to == [""]
  {
    RecipientsFromDefault(cfg, req);
  }

  /** With a requested subject, the message is the built header line followed directly by the body. */
  lemma RequestedSubjectMessage(cfg: Settings, req: Request)
    requires |req.subject| > 0
    ensures Resolve(cfg, req).msg == SubjectPrefix + req.subject + "\n" + req.message
  {
  }

  /** With no requested subject, the message is the default subject setting followed directly by the body. */
  lemma DefaultSubjectMessage(cfg: Settings, req: Request)
    requires |req.subject| == 0
    ensures Resolve(cfg, req).msg == cfg.emailSubject + req.message
  {
  }

  /** The first line of a message: up to and including the first newline, or all of it. */
  function FirstLine(m: string): (r: string)
  {
    if '\n' in m then m[..IndexOf(m, '\n') + 1] else m
  }

  /** A line that ends in its only newline is the first line of anything it starts. */
  lemma FirstLineOfPrefix(line: string, rest: string)
    requires |line| > 0 && line[|line| - 1] == '\n' && '\n' !in line[..|line| - 1]
    ensures FirstLine(line + rest) == line
  {
    var m := line + rest;
    assert m[..|line| - 1] == line[..|line| - 1];
    IndexOfIsFirst(m, '\n', |line| - 1);
  }

  /** A requested subject without a newline is exactly the message's first line. */
  lemma SubjectIsFirstLine(cfg: Settings, req: Request)
    requires |req.subject| > 0 && '\n' !in req.subject
    ensures FirstLine(Resolve(cfg, req).msg) == SubjectPrefix + req.subject + "\n"
  {
    var line := SubjectPrefix + req.subject + "\n";
    assert line[..|line| - 1] == SubjectPrefix + req.subject;
    RequestedSubjectMessage(cfg, req);
    FirstLineOfPrefix(line, req.message);
  }

  /** A newline inside a subject ends the first line of the message built from it. */
  lemma SubjectNewlineEndsFirstLine(before: string, after: string, body: string)
    requires '\n' !in before
    ensures FirstLine(SubjectPrefix + (before + "\n" + after) + "\n" + body) == SubjectPrefix + before + "\n"
  {
    var line := SubjectPrefix + before + "\n";
    var rest := after + "\n" + body;
    assert SubjectPrefix + (before + "\n" + after) + "\n" + body == line + rest;
    assert line[..|line| - 1] == SubjectPrefix + before;
    FirstLineOfPrefix(line, rest);
  }

  /**
   * The requested subject is not checked for newlines: a newline in it ends
   * the header line early, and what follows becomes further header text.
   */
  lemma NewlineInSubjectEndsHeaderEarly(cfg: Settings, req: Request, before: string, after: string)
    requires req.subject == before + "\n" + after && '\n' !in before
    ensures FirstLine(Resolve(cfg, req).msg) == SubjectPrefix + before + "\n"
    ensures FirstLine(Resolve(cfg, req).msg) != SubjectLine(cfg, req.subject)
  {
    RequestedSubjectMessage(cfg, req);
    SubjectNewlineEndsFirstLine(before, after, req.message);
  }

  /** Comma-separated addresses without empty entries come out as exactly those addresses, in order. */
  lemma {:induction false} RequestedAddressesInOrder(cfg: Settings, req: Request, addresses: seq<string>)
    requires |addresses| >= 1 && forall k :: 0 <= k < |addresses| ==> Comma !in addresses[k]
    requires req.recipients == Join(addresses, Comma) && |req.recipients| > 0
    ensures Resolve(cfg, req).to == addresses
  {
    SplitJoin(addresses, Comma);
    RecipientsFromRequest(cfg, cfg, req);
  }

  /** The recipients of an explicit request "a@x.com,b@x.com": both addresses, in order. */
  lemma ExplicitRecipientsScenario(cfg: Settings, req: Request)
    requires req.recipients == "a@x.com,b@x.com"
    ensures Resolve(cfg, req).to == ["a@x.com", "b@x.com"]
  {
    assert Join(["a@x.com", "b@x.com"], Comma) == req.recipients;
    RequestedAddressesInOrder(cfg, req, ["a@x.com", "b@x.com"]);
  }

  /** The message of an explicit request with subject "Hi" and body "Body". */
  lemma ExplicitMessageScenario(cfg: Settings, req: Request)
    requires req.subject == "Hi" && req.message == "Body"
    ensures Resolve(cfg, req).msg == "Subject: Hi\nBody"
  {
    RequestedSubjectMessage(cfg, req);
  }

  /** An empty request with one comma-free default address: that address, and the default subject line verbatim before the body. */
  lemma DefaultsOnly(cfg: Settings, req: Request)
    requires |req.recipients| == 0 && |req.subject| == 0
    requires Comma !in cfg.emailRecipient
    ensures Resolve(cfg, req).to == [cfg.emailRecipient]
    ensures Resolve(cfg, req).msg == cfg.emailSubject + req.message
  {
    RecipientsFromDefault(cfg, req);
    SplitJoin([cfg.emailRecipient], Comma);
    DefaultSubjectMessage(cfg, req);
  }

  /** The outcome of one relay submission; the cause is kept but never shown to the caller. */
  datatype SendResult = Delivered | RelayError(cause: string)

  /** What one `sendEmail` call does: the submissions it hands to the relay, and the outcome it returns. */
  datatype SendAttempt = SendAttempt(submitted: seq<Submission>, result: SendResult)

  /**
   * `sendEmail`: exactly one submission, of the resolved arguments, goes to
   * the relay, and the relay's outcome is returned as it is (no retry). The
   * relay is a parameter.
   */
  function SendEmail(cfg: Settings, req: Request, relay: Submission -> SendResult): (r: SendAttempt)
    ensures |r.submitted| == 1 && r.submitted[0] == Resolve(cfg, req)
    ensures r.result == relay(r.submitted[0])
  {
    var submission := Resolve(cfg, req);
    SendAttempt([submission], relay(submission))
  }
}
