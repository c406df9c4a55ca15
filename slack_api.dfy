/**
 * What StandardSlackService sends to Slack: the webhook and upload URLs,
 * the attachment payload as a structured value (its JSON text is not
 * modelled) and the requests and responses of the HTTP transport.
 */
module SlackApi {
  import opened Wrappers

  /** The host used until `setHost` changes it. */
  const DefaultHost: string := "slack.com"

  /** The color `publish(message)` uses. */
  const DefaultColor: string := "warning"

  /** `HttpStatus.SC_OK`. */
  const HttpOk: int := 200

  const WebhookPath: string := "/services/hooks/jenkins-ci?token="
  const UploadPath: string := "/api/files.upload"

  /** The attachment sections Slack renders with markdown. */
  const MarkdownSections: seq<string> := ["pretext", "text", "fields"]

  // ---------------------------------------------------------------- URLs

  /** The team-scoped webhook URL of `publish`. */
  function WebhookUrl(teamDomain: string, host: string, token: string): string
  {
    "https://" + teamDomain + "." + host + WebhookPath + token
  }

  /** The upload URL of `uploadFiles`: on the host alone, not on the team's domain. */
  function UploadUrl(host: string): string
  {
    "https://" + host + UploadPath
  }

  /** Index of the first `c` in `s`, or `|s|` when there is none. */
  function IndexOf(s: string, c: char): (n: nat)
    ensures n <= |s|
    ensures c !in s[..n]
    ensures n < |s| ==> s[n] == c
  {
    if s == [] || s[0] == c then 0
    else
      var m := IndexOf(s[1..], c);
      assert s[..m + 1] == [s[0]] + s[1..][..m];
      m + 1
  }

  /** Reads an `https` URL as its authority (up to the first `/`) and the path and query after it. */
  function SplitHttpsUrl(url: string): Option<(string, string)>
  {
    if |url| >= 8 && url[..8] == "https://" then
      var rest := url[8..];
      var k := IndexOf(rest, '/');
      Some((rest[..k], rest[k..]))
    else None
  }

  lemma {:induction false} IndexOfAppend(a: string, b: string, c: char)
    requires c !in a
    requires b != [] && b[0] == c
    ensures IndexOf(a + b, c) == |a|
  {
    if a == [] {
      assert a + b == b;
    } else {
      assert (a + b)[1..] == a[1..] + b;
      IndexOfAppend(a[1..], b, c);
    }
  }

  /**
   * The webhook URL names the host `teamDomain.host` and carries the token
   * as its query, provided neither part contains a `/`.
   */
  lemma WebhookUrlParts(teamDomain: string, host: string, token: string)
    requires '/' !in teamDomain && '/' !in host
    ensures SplitHttpsUrl(WebhookUrl(teamDomain, host, token))
         == Some((teamDomain + "." + host, WebhookPath + token))
  {
    var authority := teamDomain + "." + host;
    var url := WebhookUrl(teamDomain, host, token);
    assert url == "https://" + (authority + (WebhookPath + token));
    assert url[8..] == authority + (WebhookPath + token);
    IndexOfAppend(authority, WebhookPath + token, '/');
  }

  /** The upload URL names the configured host alone and the fixed upload path. */
  lemma UploadUrlParts(host: string)
    requires '/' !in host
    ensures SplitHttpsUrl(UploadUrl(host)) == Some((host, UploadPath))
  {
    var url := UploadUrl(host);
    assert url[8..] == host + UploadPath;
    IndexOfAppend(host, UploadPath, '/');
  }

  // ------------------------------------------------------------- payload

  /** One entry of an attachment's `fields` array. */
  datatype Field = Field(short: bool, value: string)

  /** A Slack message attachment; `mrkdwnIn` is the `mrkdwn_in` array. */
  datatype Attachment = Attachment(fallback: string, color: string, fields: seq<Field>, mrkdwnIn: seq<string>)

  /** The JSON object posted as the `payload` form parameter. */
  datatype Envelope = Envelope(channel: string, attachments: seq<Attachment>)

  /** What a webhook payload tells its channel. */
  datatype Notification = Notification(channel: string, message: string, color: string)

  /**
   * Reads a payload of the shape `publish` builds back into the
   * notification it carries; `None` for any other shape.
   */
  function ReadPayload(e: Envelope): Option<Notification>
  {
    if |e.attachments| == 1 then
      var a := e.attachments[0];
      if a.fields == [Field(false, a.fallback)] && a.mrkdwnIn == MarkdownSections then
        Some(Notification(e.channel, a.fallback, a.color))
      else None
    else None
  }

  /** Only the payload `publish` builds is read as a notification: the reading is exact. */
  lemma ReadPayloadExact(e: Envelope)
    ensures ReadPayload(e).Some? ==>
      var n := ReadPayload(e).value;
      e == WebhookPayload(n.channel, n.message, n.color)
  {
  }

  /** The payload `publish` posts to one channel: a single attachment showing the message. */
  function WebhookPayload(roomId: string, message: string, color: string): (e: Envelope)
    ensures ReadPayload(e) == Some(Notification(roomId, message, color))
  {
    var field := Field(false, message);
    var attachment := Attachment(message, color, [field], MarkdownSections);
    Envelope(roomId, [attachment])
  }

  // ---------------------------------------------------------- transport

  /**
   * A local file handed to `uploadFiles`. `readable` says whether it is a
   * regular file the process may read; otherwise the multipart file part
   * cannot be built and the upload of that file throws before it is sent.
   */
  datatype LocalFile = LocalFile(path: string, readable: bool)

  /** Every file of `files` can be read. */
  predicate AllReadable(files: seq<LocalFile>) {
    forall i :: 0 <= i < |files| ==> files[i].readable
  }

  /**
   * The two string parts of an upload request can be built: the multipart
   * `StringPart` refuses a null value and a value containing U+0000, so
   * the upload token must be present and neither it nor the channel
   * string may contain a NUL character.
   */
  predicate StringPartsValid(uploadToken: Option<string>, channels: string) {
    uploadToken.Some? && '\0' !in uploadToken.value && '\0' !in channels
  }

  /** How many files of `files` can be read. */
  function CountReadable(files: seq<LocalFile>): (n: nat)
    ensures n <= |files|
    ensures n == |files| <==> AllReadable(files)
  {
    if files == [] then 0
    else
      var k := |files| - 1;
      var n := CountReadable(files[..k]) + (if files[k].readable then 1 else 0);
      assert AllReadable(files) <==> AllReadable(files[..k]) && files[k].readable by {
        assert forall i :: 0 <= i < k ==> files[..k][i] == files[i];
      }
      n
  }

  /** One part of a multipart request. */
  datatype Part = StringPart(name: string, value: string) | FilePart(name: string, file: LocalFile)

  datatype Body =
    | Form(payload: Envelope)        // form parameter `payload`
    | Multipart(parts: seq<Part>)

  datatype Request = Post(url: string, body: Body)

  /**
   * What one execution of a POST gave back: an exception from the transport
   * or from reading the response, or a status code with the boolean `ok`
   * member of the JSON body when the body is a JSON object that has one.
   */
  datatype Outcome = Thrown | Response(status: int, okField: Option<bool>)

  /** A webhook POST counts as delivered when it returned status 200 without throwing. */
  predicate Delivered(o: Outcome) {
    o.Response? && o.status == HttpOk
  }

  /**
   * An upload POST does not falsify the upload result when it returned 200
   * and its body has a boolean `ok`, whatever that value is: a missing or
   * unreadable `ok` throws, `ok:false` is only reported.
   */
  predicate Acknowledged(o: Outcome) {
    o.Response? && o.status == HttpOk && o.okField.Some?
  }

  /** The webhook POST of `publish` for one channel. */
  function WebhookRequest(teamDomain: string, host: string, token: string, roomId: string, message: string, color: string): Request
  {
    Post(WebhookUrl(teamDomain, host, token), Form(WebhookPayload(roomId, message, color)))
  }

  /** The webhook POSTs of `publish`, one per channel in the order of `roomIds`. */
  function WebhookRequests(teamDomain: string, host: string, token: string, roomIds: seq<string>, message: string, color: string): (r: seq<Request>)
    ensures |r| == |roomIds|
  {
    if roomIds == [] then []
    else
      var n := |roomIds| - 1;
      WebhookRequests(teamDomain, host, token, roomIds[..n], message, color)
        + [WebhookRequest(teamDomain, host, token, roomIds[n], message, color)]
  }

  /** The multipart POST of `uploadFiles` for one file. */
  function UploadRequest(host: string, uploadToken: string, channels: string, file: LocalFile): Request
  {
    Post(UploadUrl(host), Multipart([StringPart("token", uploadToken), StringPart("channels", channels), FilePart("file", file)]))
  }

  /**
   * The upload POSTs actually sent for `files`: none when the string parts
   * cannot be built, otherwise one per readable file, in order.
   */
  function UploadRequests(host: string, uploadToken: Option<string>, channels: string, files: seq<LocalFile>): (r: seq<Request>)
    ensures |r| <= |files|
    ensures !StringPartsValid(uploadToken, channels) ==> r == []
  {
    if files == [] || !StringPartsValid(uploadToken, channels) then []
    else
      var n := |files| - 1;
      UploadRequests(host, uploadToken, channels, files[..n])
        + (if files[n].readable then [UploadRequest(host, uploadToken.value, channels, files[n])] else [])
  }

  /**
   * The `i`-th webhook POST goes to the team's webhook URL and carries the
   * notification for the `i`-th channel.
   */
  lemma {:induction false} WebhookRequestsAt(teamDomain: string, host: string, token: string, roomIds: seq<string>, message: string, color: string, i: nat)
    requires i < |roomIds|
    ensures var r := WebhookRequests(teamDomain, host, token, roomIds, message, color)[i];
      && r.url == WebhookUrl(teamDomain, host, token)
      && r.body.Form?
      && ReadPayload(r.body.payload) == Some(Notification(roomIds[i], message, color))
  {
    var n := |roomIds| - 1;
    if i < n {
      WebhookRequestsAt(teamDomain, host, token, roomIds[..n], message, color, i);
    }
  }

  /**
   * With an upload token and only readable files, there is one upload POST
   * per file, the `i`-th one for the `i`-th file.
   */
  lemma {:induction false} UploadRequestsAll(host: string, uploadToken: string, channels: string, files: seq<LocalFile>)
    requires StringPartsValid(Some(uploadToken), channels)
    requires AllReadable(files)
    ensures var r := UploadRequests(host, Some(uploadToken), channels, files);
      |r| == |files| && forall i :: 0 <= i < |r| ==> r[i] == UploadRequest(host, uploadToken, channels, files[i])
  {
    if files != [] {
      UploadRequestsAll(host, uploadToken, channels, files[..|files| - 1]);
    }
  }

  /**
   * When the string parts can be built, the upload POSTs are exactly those
   * of the readable files, in order: one per readable file, and the one
   * for the readable `files[j]` sits after those of the readable files
   * before it. An unreadable file does not stop the files after it.
   */
  lemma {:induction false} UploadRequestsReadable(host: string, uploadToken: string, channels: string, files: seq<LocalFile>)
    requires StringPartsValid(Some(uploadToken), channels)
    ensures var r := UploadRequests(host, Some(uploadToken), channels, files);
      && |r| == CountReadable(files)
      && forall j :: 0 <= j < |files| && files[j].readable ==>
           CountReadable(files[..j]) < |r| && r[CountReadable(files[..j])] == UploadRequest(host, uploadToken, channels, files[j])
  {
    if files != [] {
      var k := |files| - 1;
      var p := files[..k];
      UploadRequestsReadable(host, uploadToken, channels, p);
      var r := UploadRequests(host, Some(uploadToken), channels, files);
      var rp := UploadRequests(host, Some(uploadToken), channels, p);
      assert r == rp + (if files[k].readable then [UploadRequest(host, uploadToken, channels, files[k])] else []);
      forall j | 0 <= j < |files| && files[j].readable
        ensures CountReadable(files[..j]) < |r| && r[CountReadable(files[..j])] == UploadRequest(host, uploadToken, channels, files[j])
      {
        if j < k {
          assert files[..j] == p[..j] && files[j] == p[j];
        } else {
          assert files[..j] == p;
        }
      }
    }
  }

  /**
   * A file that cannot be read gets no upload POST: no request carries it,
   * so there are fewer POSTs than files.
   */
  lemma {:induction false} UploadRequestsSkipUnreadable(host: string, uploadToken: Option<string>, channels: string, files: seq<LocalFile>, j: nat)
    requires j < |files| && !files[j].readable
    ensures var r := UploadRequests(host, uploadToken, channels, files);
      && |r| < |files|
      && forall i :: 0 <= i < |r| ==> r[i].body.Multipart? && FilePart("file", files[j]) !in r[i].body.parts
  {
    var n := |files| - 1;
    if j < n {
      UploadRequestsSkipUnreadable(host, uploadToken, channels, files[..n], j);
      assert files[..n][j] == files[j];
    } else {
      UploadRequestsCarryReadable(host, uploadToken, channels, files);
    }
  }

  /** A multipart request whose file parts are all readable files. */
  predicate CarriesReadable(req: Request) {
    req.body.Multipart? && forall p :: p in req.body.parts && p.FilePart? ==> p.file.readable
  }

  /** Every upload POST carries a readable file. */
  lemma {:induction false} UploadRequestsCarryReadable(host: string, uploadToken: Option<string>, channels: string, files: seq<LocalFile>)
    ensures forall i :: 0 <= i < |UploadRequests(host, uploadToken, channels, files)| ==>
      CarriesReadable(UploadRequests(host, uploadToken, channels, files)[i])
  {
    if files != [] && StringPartsValid(uploadToken, channels) {
      var n := |files| - 1;
      UploadRequestsCarryReadable(host, uploadToken, channels, files[..n]);
      var rp := UploadRequests(host, uploadToken, channels, files[..n]);
      var r := UploadRequests(host, uploadToken, channels, files);
      var req := UploadRequest(host, uploadToken.value, channels, files[n]);
      assert r == rp + (if files[n].readable then [req] else []);
      forall i | 0 <= i < |r|
        ensures CarriesReadable(r[i])
      {
        if i < |rp| {
          assert r[i] == rp[i];
        } else {
          assert r[i] == req && req.body.parts == [StringPart("token", uploadToken.value), StringPart("channels", channels), FilePart("file", files[n])];
        }
      }
    }
  }

  /** Every request of `reqs`, executed as calls `start`, `start + 1`, ..., was delivered. */
  predicate AllDelivered(respond: (nat, Request) -> Outcome, start: nat, reqs: seq<Request>) {
    forall i :: 0 <= i < |reqs| ==> Delivered(respond(start + i, reqs[i]))
  }

  /** Every request of `reqs`, executed as calls `start`, `start + 1`, ..., was acknowledged. */
  predicate AllAcknowledged(respond: (nat, Request) -> Outcome, start: nat, reqs: seq<Request>) {
    forall i :: 0 <= i < |reqs| ==> Acknowledged(respond(start + i, reqs[i]))
  }

  lemma WebhookRequestsStep(teamDomain: string, host: string, token: string, roomIds: seq<string>, i: nat, message: string, color: string)
    requires i < |roomIds|
    ensures WebhookRequests(teamDomain, host, token, roomIds[..i + 1], message, color)
         == WebhookRequests(teamDomain, host, token, roomIds[..i], message, color)
            + [WebhookRequest(teamDomain, host, token, roomIds[i], message, color)]
  {
    assert roomIds[..i + 1][..i] == roomIds[..i];
  }

  /** How one more file extends the upload requests, the readability and the acknowledgements of the files before it. */
  lemma UploadProgress(respond: (nat, Request) -> Outcome, start: nat, host: string, uploadToken: Option<string>, channels: string, files: seq<LocalFile>, i: nat)
    requires i < |files|
    ensures var done := UploadRequests(host, uploadToken, channels, files[..i]);
      var next := UploadRequests(host, uploadToken, channels, files[..i + 1]);
      && (AllReadable(files[..i + 1]) <==> AllReadable(files[..i]) && files[i].readable)
      && (StringPartsValid(uploadToken, channels) && files[i].readable ==>
            && next == done + [UploadRequest(host, uploadToken.value, channels, files[i])]
            && (AllAcknowledged(respond, start, next) <==>
                AllAcknowledged(respond, start, done) && Acknowledged(respond(start + |done|, UploadRequest(host, uploadToken.value, channels, files[i])))))
      && (!StringPartsValid(uploadToken, channels) || !files[i].readable ==> next == done)
  {
    assert files[..i + 1][..i] == files[..i];
    assert files[..i + 1][i] == files[i];
    var done := UploadRequests(host, uploadToken, channels, files[..i]);
    if StringPartsValid(uploadToken, channels) && files[i].readable {
      AllAcknowledgedAppend(respond, start, done, UploadRequest(host, uploadToken.value, channels, files[i]));
    }
  }

  lemma AllDeliveredAppend(respond: (nat, Request) -> Outcome, start: nat, reqs: seq<Request>, last: Request)
    ensures AllDelivered(respond, start, reqs + [last])
        <==> AllDelivered(respond, start, reqs) && Delivered(respond(start + |reqs|, last))
  {
    assert (reqs + [last])[|reqs|] == last;
    assert forall i :: 0 <= i < |reqs| ==> (reqs + [last])[i] == reqs[i];
  }

  lemma AllAcknowledgedAppend(respond: (nat, Request) -> Outcome, start: nat, reqs: seq<Request>, last: Request)
    ensures AllAcknowledged(respond, start, reqs + [last])
        <==> AllAcknowledged(respond, start, reqs) && Acknowledged(respond(start + |reqs|, last))
  {
    assert (reqs + [last])[|reqs|] == last;
    assert forall i :: 0 <= i < |reqs| ==> (reqs + [last])[i] == reqs[i];
  }
}
