/** Delivery of the digest by e-mail: the mock mode that writes the message to a
    local file, the SMTP and Gmail API transports, and the retry and fallback
    policy of `send_email`. The transports are oracles: what each attempt does is
    a parameter indexed by the attempt number; the waits are returned as values. */
module Gmail {
  import opened Model
  import opened Text
  import Client
  import Seqs

  /** What one call of a transport does: it delivers (with the message id the Gmail
      API answers with), raises `RuntimeError` (missing authorisation), or raises
      another exception. */
  datatype Attempt = Delivered(messageId: string) | AuthError(message: string) | Failure(message: string)

  /** The dict `send_email` returns; `Sent` is status "sent", `Failed` is "failed".
      An absent key is None. */
  datatype SendResult =
    | Sent(mode: string, recipient: string, filePath: Option<string>, pdfPath: Option<string>,
           pdfAttached: Option<bool>, messageId: Option<string>)
    | Failed(failedMode: Option<string>, failedRecipient: Option<string>, error: Option<string>)

  /** A CID image: its content id and its `data_uri` ("" when absent). */
  datatype Image = Image(cid: string, dataUri: string)

  /** The sender settings of the SMTP mode ("" when unset). */
  datatype Credentials = Credentials(senderEmail: string, appPassword: string)

  // ---------------------------------------------------------------- mock mode

  /** The preview: each `cid:<id>` reference replaced, image by image, by the image's
      data URI, skipping images without one. */
  function PreviewHtml(html: string, images: seq<Image>): string
    decreases |images|
  {
    if images == [] then html
    else
      var h := PreviewHtml(html, images[..|images| - 1]);
      var img := images[|images| - 1];
      if img.dataUri != "" then ReplaceAll(h, "cid:" + img.cid, img.dataUri) else h
  }

  function HasDataUri(img: Image): bool {
    img.dataUri != ""
  }

  /** Images without a data URI change nothing: the preview is the one of the images
      that have one. */
  lemma {:induction false} PreviewSkipsEmpty(html: string, images: seq<Image>)
    ensures PreviewHtml(html, images) == PreviewHtml(html, Seqs.Filter(images, HasDataUri))
    decreases |images|
  {
    if images != [] {
      var init := images[..|images| - 1];
      PreviewSkipsEmpty(html, init);
      var kept := Seqs.Filter(images, HasDataUri);
      var last := images[|images| - 1];
      if HasDataUri(last) {
        assert kept == Seqs.Filter(init, HasDataUri) + [last];
        assert kept[..|kept| - 1] == Seqs.Filter(init, HasDataUri);
      } else {
        assert kept == Seqs.Filter(init, HasDataUri);
        PreviewSkipsEmpty(html, Seqs.Filter(init, HasDataUri));
      }
    }
  }

  /** Without a single data URI the preview is the message itself. */
  lemma {:induction false} PreviewWithoutDataUris(html: string, images: seq<Image>)
    requires forall i :: 0 <= i < |images| ==> images[i].dataUri == ""
    ensures PreviewHtml(html, images) == html
    decreases |images|
  {
    if images != [] {
      PreviewWithoutDataUris(html, images[..|images| - 1]);
    }
  }

  /** The replacement loop of `send_mock`. */
  method Preview(html: string, images: seq<Image>) returns (preview: string)
    ensures preview == PreviewHtml(html, images)
  {
    preview := html;
    var k := 0;
    while k < |images|
      invariant k <= |images|
      invariant preview == PreviewHtml(html, images[..k])
    {
      assert images[..k + 1][..k] == images[..k];
      if images[k].dataUri != "" {
        preview := ReplaceAll(preview, "cid:" + images[k].cid, images[k].dataUri);
      }
      k := k + 1;
    }
    assert images[..k] == images;
  }

  /** The address made safe for a file name: "@" becomes "_at_", then "." becomes "_". */
  function SafeAddress(to: string): string {
    ReplaceAll(ReplaceAll(to, "@", "_at_"), ".", "_")
  }

  function MockFileName(to: string): string {
    "digest_" + SafeAddress(to) + ".html"
  }

  /** The safe address has neither "@" nor ".", so the file name holds no "@" and its
      only "." is the one of the ".html" extension. */
  lemma MockFileNameSafe(to: string)
    ensures '@' !in SafeAddress(to) && '.' !in SafeAddress(to)
    ensures '@' !in MockFileName(to)
    ensures StartsWith(MockFileName(to), "digest_") && EndsWith(MockFileName(to), ".html")
  {
    var once := ReplaceAll(to, "@", "_at_");
    ReplaceRemovesChar(to, '@', "_at_");
    ReplaceKeepsAbsent(once, '.', "_", '@');
    ReplaceRemovesChar(once, '.', "_");
    var name := MockFileName(to);
    assert name == "digest_" + (SafeAddress(to) + ".html");
    assert name[..7] == "digest_";
    assert name[|name| - 5..] == ".html";
  }

  /** An address `user@host.tld` whose parts hold neither "@" nor "." gives
      `digest_user_at_host_tld.html`, as the delivery tests expect of
      "user@example.com". */
  lemma MockFileNameOfAddress(user: string, host: string, tld: string)
    requires '@' !in user && '.' !in user && '@' !in host && '.' !in host && '@' !in tld && '.' !in tld
    ensures MockFileName(user + "@" + host + "." + tld) == "digest_" + user + "_at_" + host + "_" + tld + ".html"
  {
    var addr := user + "@" + host + "." + tld;
    var rest := host + ['.'] + tld;
    var front := user + "_at_" + host;
    assert addr == user + ['@'] + rest;
    AtReplaced(addr, user, rest);
    assert user + "_at_" + rest == front + ['.'] + tld;
    DotReplaced(addr, front, tld);
  }

  lemma AtReplaced(addr: string, user: string, rest: string)
    requires '@' !in user && '@' !in rest && addr == user + ['@'] + rest
    ensures ReplaceAll(addr, "@", "_at_") == user + "_at_" + rest
  {
    ReplaceCharOnce(user, '@', rest, "_at_");
  }

  lemma DotReplaced(addr: string, front: string, tld: string)
    requires ReplaceAll(addr, "@", "_at_") == front + ['.'] + tld
    requires '.' !in front && '.' !in tld
    ensures SafeAddress(addr) == front + "_" + tld
  {
    ReplaceCharOnce(front, '.', tld, "_");
  }

  /** `send_mock`: the preview is written to the file named after the address in the
      output directory, and the result says "mock". */
  function MockResult(to: string, outDir: string, pdfPath: Option<string>): SendResult {
    Sent("mock", to, Some(outDir + "/" + MockFileName(to)), pdfPath, None, None)
  }

  // ---------------------------------------------------------------- transports

  const SenderMissing := "GMAIL_SENDER_EMAIL not set in .env"
  const PasswordMissing := "GMAIL_APP_PASSWORD not set in .env. Generate one at https://myaccount.google.com/apppasswords"
  const NotAuthorized := "Gmail not authorized. Run 'python -m src.delivery.auth' first."

  /** One call of `send_smtp`: the credentials are checked before anything is sent. */
  function SmtpAttempt(creds: Credentials, transport: Attempt): (a: Attempt)
    ensures creds.senderEmail == "" ==> a == AuthError(SenderMissing)
    ensures creds.senderEmail != "" && creds.appPassword == "" ==> a == AuthError(PasswordMissing)
    ensures creds.senderEmail != "" && creds.appPassword != "" ==> a == transport
  {
    if creds.senderEmail == "" then AuthError(SenderMissing)
    else if creds.appPassword == "" then AuthError(PasswordMissing)
    else transport
  }

  /** One call of `send_gmail`: without stored authorisation the service is not built. */
  function GmailAttempt(authorized: bool, transport: Attempt): Attempt {
    if !authorized then AuthError(NotAuthorized) else transport
  }

  /** The delivery settings: the mode and everything needed to run one. */
  datatype Setup = Setup(mode: string, creds: Credentials, authorized: bool, outDir: string)

  predicate TransportMode(mode: string) {
    mode == "smtp" || mode == "gmail"
  }

  /** What attempt `k` of a transport mode does. */
  function AttemptOf(st: Setup, transport: nat -> Attempt, k: nat): Attempt
    requires TransportMode(st.mode)
  {
    if st.mode == "smtp" then SmtpAttempt(st.creds, transport(k)) else GmailAttempt(st.authorized, transport(k))
  }

  function Delivery(st: Setup, to: string, pdfPath: Option<string>, messageId: string): SendResult
    requires TransportMode(st.mode)
  {
    if st.mode == "smtp" then Sent("smtp", to, None, None, Some(pdfPath.Some?), None)
    else Sent("gmail", to, None, None, Some(pdfPath.Some?), Some(messageId))
  }

  /** `send_email` from attempt `k` on: the result, and the waits slept on the way. */
  function SendFrom(st: Setup, to: string, maxRetries: int, pdfPath: Option<string>,
                    transport: nat -> Attempt, k: nat): (SendResult, seq<nat>)
    decreases maxRetries - k
  {
    if k >= maxRetries then (Failed(Some(st.mode), Some(to), None), [])
    else if st.mode == "mock" then (MockResult(to, st.outDir, pdfPath), [])
    else if !TransportMode(st.mode) then (Failed(None, None, Some("Unknown mode: " + st.mode)), [])
    else match AttemptOf(st, transport, k)
      case Delivered(id) => (Delivery(st, to, pdfPath, id), [])
      case AuthError(_) => (MockResult(to, st.outDir, pdfPath), [])
      case Failure(e) =>
        if k < maxRetries - 1 then
          var rest := SendFrom(st, to, maxRetries, pdfPath, transport, k + 1);
          (rest.0, [Client.Pow2(k + 1)] + rest.1)
        else (Failed(Some(st.mode), Some(to), Some(e)), [])
  }

  function SendEmailSpec(st: Setup, to: string, maxRetries: int, pdfPath: Option<string>,
                         transport: nat -> Attempt): (SendResult, seq<nat>) {
    SendFrom(st, to, maxRetries, pdfPath, transport, 0)
  }

  /** `send_email`: an attempt loop with early returns. */
  method SendEmail(st: Setup, to: string, maxRetries: int, pdfPath: Option<string>, transport: nat -> Attempt)
    returns (result: SendResult, waits: seq<nat>)
    ensures (result, waits) == SendEmailSpec(st, to, maxRetries, pdfPath, transport)
  {
    waits := [];
    var attempt := 0;
    assert [] + SendEmailSpec(st, to, maxRetries, pdfPath, transport).1 == SendEmailSpec(st, to, maxRetries, pdfPath, transport).1;
    while attempt < maxRetries
      invariant 0 <= attempt
      invariant maxRetries > 0 ==> attempt <= maxRetries
      invariant SendEmailSpec(st, to, maxRetries, pdfPath, transport)
                == (SendFrom(st, to, maxRetries, pdfPath, transport, attempt).0,
                    waits + SendFrom(st, to, maxRetries, pdfPath, transport, attempt).1)
      decreases maxRetries - attempt
    {
      assert waits + [] == waits;
      if st.mode == "mock" {
        return MockResult(to, st.outDir, pdfPath), waits;
      }
      if !TransportMode(st.mode) {
        return Failed(None, None, Some("Unknown mode: " + st.mode)), waits;
      }
      var a := AttemptOf(st, transport, attempt);
      match a {
        case Delivered(id) =>
          return Delivery(st, to, pdfPath, id), waits;
        case AuthError(_) =>
          return MockResult(to, st.outDir, pdfPath), waits;
        case Failure(e) =>
          if attempt < maxRetries - 1 {
            AppendAssoc(waits, [Client.Pow2(attempt + 1)], SendFrom(st, to, maxRetries, pdfPath, transport, attempt + 1).1);
            waits := waits + [Client.Pow2(attempt + 1)];
          } else {
            return Failed(Some(st.mode), Some(to), Some(e)), waits;
          }
      }
      attempt := attempt + 1;
    }
    assert waits + [] == waits;
    result := Failed(Some(st.mode), Some(to), None);
  }

  // ---------------------------------------------------------------- policy

  /** With no attempt allowed the result is "failed" with no error, after no wait. */
  lemma NoAttempts(st: Setup, to: string, maxRetries: int, pdfPath: Option<string>, transport: nat -> Attempt)
    requires maxRetries <= 0
    ensures SendEmailSpec(st, to, maxRetries, pdfPath, transport) == (Failed(Some(st.mode), Some(to), None), [])
  {
  }

  /** An unknown mode fails at the first attempt, with no mode and no recipient in
      the result; the mock mode always delivers to the file, at once. */
  lemma ModeDispatch(st: Setup, to: string, maxRetries: int, pdfPath: Option<string>, transport: nat -> Attempt)
    requires maxRetries >= 1
    ensures st.mode == "mock" ==> SendEmailSpec(st, to, maxRetries, pdfPath, transport) == (MockResult(to, st.outDir, pdfPath), [])
    ensures st.mode != "mock" && !TransportMode(st.mode) ==>
      SendEmailSpec(st, to, maxRetries, pdfPath, transport) == (Failed(None, None, Some("Unknown mode: " + st.mode)), [])
  {
  }

  /** Missing SMTP credentials are a `RuntimeError`: the message goes to the mock
      file at once, without retry and whatever the transport would have done. */
  lemma MissingCredentialsFallBack(st: Setup, to: string, maxRetries: int, pdfPath: Option<string>, transport: nat -> Attempt)
    requires st.mode == "smtp" && (st.creds.senderEmail == "" || st.creds.appPassword == "")
    requires maxRetries >= 1
    ensures SendEmailSpec(st, to, maxRetries, pdfPath, transport) == (MockResult(to, st.outDir, pdfPath), [])
  {
  }

  /** Attempts that all fail: `maxRetries` attempts, waits of 2, 4, ... seconds
      between them (none after the last), and "failed" with the last error, the
      mode and the recipient. */
  lemma {:induction false} Exhausted(st: Setup, to: string, maxRetries: int, pdfPath: Option<string>,
                                     transport: nat -> Attempt, k: nat)
    requires TransportMode(st.mode) && k < maxRetries
    requires forall j :: k <= j < maxRetries ==> AttemptOf(st, transport, j).Failure?
    ensures var r := SendFrom(st, to, maxRetries, pdfPath, transport, k);
      && r.0 == Failed(Some(st.mode), Some(to), Some(AttemptOf(st, transport, maxRetries - 1).message))
      && |r.1| == maxRetries - 1 - k
      && forall i :: 0 <= i < |r.1| ==> r.1[i] == Client.Pow2(k + i + 1)
    decreases maxRetries - k
  {
    if k < maxRetries - 1 {
      Exhausted(st, to, maxRetries, pdfPath, transport, k + 1);
    }
  }

  /** After failed attempts, the first attempt that does not fail decides: a delivery
      is the transport's result, a `RuntimeError` falls back to the mock file; no
      attempt comes after it and one wait came after each failure. */
  lemma {:induction false} FirstSuccessDecides(st: Setup, to: string, maxRetries: int, pdfPath: Option<string>,
                                               transport: nat -> Attempt, k: nat, n: nat)
    requires TransportMode(st.mode) && k <= n < maxRetries
    requires forall j :: k <= j < n ==> AttemptOf(st, transport, j).Failure?
    requires !AttemptOf(st, transport, n).Failure?
    ensures var r := SendFrom(st, to, maxRetries, pdfPath, transport, k);
      && (AttemptOf(st, transport, n).Delivered? ==> r.0 == Delivery(st, to, pdfPath, AttemptOf(st, transport, n).messageId))
      && (AttemptOf(st, transport, n).AuthError? ==> r.0 == MockResult(to, st.outDir, pdfPath))
      && |r.1| == n - k
      && forall i :: 0 <= i < |r.1| ==> r.1[i] == Client.Pow2(k + i + 1)
    decreases n - k
  {
    if k < n {
      FirstSuccessDecides(st, to, maxRetries, pdfPath, transport, k + 1, n);
    }
  }

  /** A "sent" result names the recipient; at most `maxRetries` attempts are made, so
      fewer waits than that. */
  lemma {:induction false} SendFromBounds(st: Setup, to: string, maxRetries: int, pdfPath: Option<string>,
                                          transport: nat -> Attempt, k: nat)
    ensures var r := SendFrom(st, to, maxRetries, pdfPath, transport, k);
      && (r.0.Sent? ==> r.0.recipient == to)
      && (k >= maxRetries ==> r.1 == [])
      && (k < maxRetries ==> |r.1| < maxRetries - k)
    decreases maxRetries - k
  {
    if k < maxRetries && TransportMode(st.mode) && AttemptOf(st, transport, k).Failure? && k < maxRetries - 1 {
      SendFromBounds(st, to, maxRetries, pdfPath, transport, k + 1);
    }
  }
}
