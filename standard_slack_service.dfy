/**
 * StandardSlackService: posts a notification to every configured channel
 * through the team's webhook and, when every post went through, uploads
 * the given files to those channels.
 */
module StandardSlack {
  import opened Wrappers
  import opened ChannelList
  import opened SlackApi
  import opened Transport

  class StandardSlackService {
    var host: string
    const teamDomain: string
    const token: string
    /** The destination channels, parsed once from `roomIdsStr`. */
    const roomIds: seq<string>
    /** The channel string exactly as configured; the upload API receives it unsplit. */
    const roomIdsStr: string
    /** Where every HTTP client this service creates sends its requests. */
    const net: Network

    constructor (teamDomain: string, token: string, roomId: string, net: Network)
      ensures host == DefaultHost
      ensures this.teamDomain == teamDomain && this.token == token
      ensures roomIds == Split(roomId) && roomIdsStr == roomId
      ensures this.net == net
    {
      host := DefaultHost;
      this.teamDomain := teamDomain;
      this.token := token;
      roomIds := Split(roomId);
      roomIdsStr := roomId;
      this.net := net;
    }

    /** Points the service at another Slack host; nothing else changes. */
    method SetHost(host: string)
      modifies this
      ensures this.host == host
    {
      this.host := host;
    }

    /** `publish(message)`: `publish(message, "warning")`. */
    method Publish(message: string) returns (result: bool)
      modifies net
      ensures result <==> AllDelivered(net.respond, |old(net.log)|, WebhookRequests(teamDomain, host, token, roomIds, message, DefaultColor))
      ensures net.log == old(net.log) + WebhookRequests(teamDomain, host, token, roomIds, message, DefaultColor)
    {
      result := PublishColored(message, DefaultColor);
    }

    /** `publish(message, color)`: the full operation with no files, so no upload. */
    method PublishColored(message: string, color: string) returns (result: bool)
      modifies net
      ensures result <==> AllDelivered(net.respond, |old(net.log)|, WebhookRequests(teamDomain, host, token, roomIds, message, color))
      ensures net.log == old(net.log) + WebhookRequests(teamDomain, host, token, roomIds, message, color)
    {
      result := PublishWithFiles(message, color, None, None);
    }

    /**
     * `publish(message, color, filesToUpload, uploadFilesUserToken)`: one
     * webhook POST per channel, in order, none skipped after a failure; the
     * result says whether all of them returned 200. Only then, and only for
     * a non-empty file list, the files are uploaded, and the upload's own
     * result is discarded.
     */
    method PublishWithFiles(message: string, color: string, filesToUpload: Option<seq<LocalFile>>, uploadToken: Option<string>)
      returns (result: bool)
      modifies net
      ensures result <==> AllDelivered(net.respond, |old(net.log)|, WebhookRequests(teamDomain, host, token, roomIds, message, color))
      ensures net.log == old(net.log) + WebhookRequests(teamDomain, host, token, roomIds, message, color)
        + (if result && filesToUpload.Some? && filesToUpload.value != []
           then UploadRequests(host, uploadToken, roomIdsStr, filesToUpload.value)
           else [])
    {
      result := true;
      ghost var log0 := net.log;
      for i := 0 to |roomIds|
        invariant net.log == log0 + WebhookRequests(teamDomain, host, token, roomIds[..i], message, color)
        invariant result <==> AllDelivered(net.respond, |log0|, WebhookRequests(teamDomain, host, token, roomIds[..i], message, color))
      {
        ghost var done := WebhookRequests(teamDomain, host, token, roomIds[..i], message, color);
        var delivered := PostToChannel(roomIds[i], message, color);
        if !delivered {
          result := false;
        }
        WebhookRequestsStep(teamDomain, host, token, roomIds, i, message, color);
        AllDeliveredAppend(net.respond, |log0|, done, WebhookRequest(teamDomain, host, token, roomIds[i], message, color));
      }
      assert roomIds[..|roomIds|] == roomIds;
      if result {
        if filesToUpload.Some? && |filesToUpload.value| > 0 {
          var _ := UploadFiles(filesToUpload, uploadToken);
        }
      }
    }

    /**
     * One iteration of `publish`'s loop: the webhook POST for `roomId`. A
     * transport exception and a non-200 status are both logged and make
     * the channel count as not delivered.
     */
    method PostToChannel(roomId: string, message: string, color: string) returns (delivered: bool)
      modifies net
      ensures net.log == old(net.log) + [WebhookRequest(teamDomain, host, token, roomId, message, color)]
      ensures delivered == Delivered(net.respond(|old(net.log)|, WebhookRequest(teamDomain, host, token, roomId, message, color)))
    {
      var url := WebhookUrl(teamDomain, host, token);
      var json := WebhookPayload(roomId, message, color);
      var outcome := net.Execute(Post(url, Form(json)));
      delivered := true;
      if outcome.Thrown? || outcome.status != HttpOk {
        delivered := false;
      }
    }

    /**
     * `uploadFiles(filesToUpload, uploadFilesUserToken)`: `false` without any
     * request for a missing or empty list; otherwise one multipart POST per
     * file, in order, none skipped after a failure. A file whose request
     * cannot be built (no upload token, a NUL character in the token or the
     * channel string, or a file that cannot be read) fails without a POST; a sent file fails on an exception or a non-200
     * status, and a 200 response whose `ok` is `false` does not fail it.
     */
    method UploadFiles(filesToUpload: Option<seq<LocalFile>>, uploadToken: Option<string>) returns (result: bool)
      modifies net
      ensures filesToUpload.None? || filesToUpload.value == [] ==> !result && net.log == old(net.log)
      ensures filesToUpload.Some? ==>
        net.log == old(net.log) + UploadRequests(host, uploadToken, roomIdsStr, filesToUpload.value)
      ensures filesToUpload.Some? && filesToUpload.value != [] ==>
        (result <==>
          && StringPartsValid(uploadToken, roomIdsStr)
          && AllReadable(filesToUpload.value)
          && AllAcknowledged(net.respond, |old(net.log)|, UploadRequests(host, uploadToken, roomIdsStr, filesToUpload.value)))
    {
      result := true;
      if filesToUpload.None? || |filesToUpload.value| == 0 {
        return false;
      }
      var files := filesToUpload.value;
      ghost var log0 := net.log;
      for i := 0 to |files|
        invariant net.log == log0 + UploadRequests(host, uploadToken, roomIdsStr, files[..i])
        invariant result <==>
          && (i == 0 || StringPartsValid(uploadToken, roomIdsStr))
          && AllReadable(files[..i])
          && AllAcknowledged(net.respond, |log0|, UploadRequests(host, uploadToken, roomIdsStr, files[..i]))
      {
        UploadProgress(net.respond, |log0|, host, uploadToken, roomIdsStr, files, i);
        var fileOk := UploadFile(files[i], uploadToken);
        if !fileOk {
          result := false;
        }
      }
      assert files[..|files|] == files;
    }

    /**
     * One iteration of `uploadFiles`' loop. When a string part refuses its
     * value or the file cannot be read, building the multipart request
     * throws and nothing is sent. Otherwise the file is sent, and the iteration fails
     * on an exception, a non-200 status, or a body without a boolean `ok`;
     * `ok:false` is only reported.
     */
    method UploadFile(file: LocalFile, uploadToken: Option<string>) returns (fileOk: bool)
      modifies net
      ensures !StringPartsValid(uploadToken, roomIdsStr) || !file.readable ==> !fileOk && net.log == old(net.log)
      ensures StringPartsValid(uploadToken, roomIdsStr) && file.readable ==>
        && net.log == old(net.log) + [UploadRequest(host, uploadToken.value, roomIdsStr, file)]
        && (fileOk <==> Acknowledged(net.respond(|old(net.log)|, UploadRequest(host, uploadToken.value, roomIdsStr, file))))
    {
      var url := UploadUrl(host);
      if uploadToken.None? || '\0' in uploadToken.value {
        // the `token` part rejects a null value or one containing NUL
        return false;
      }
      if '\0' in roomIdsStr {
        // so does the `channels` part
        return false;
      }
      if !file.readable {
        // the `file` part rejects a file that is not a readable regular file
        return false;
      }
      var parts := [StringPart("token", uploadToken.value), StringPart("channels", roomIdsStr), FilePart("file", file)];
      var outcome := net.Execute(Post(url, Multipart(parts)));
      fileOk := true;
      if outcome.Thrown? {
        fileOk := false;
      } else if outcome.status != HttpOk {
        fileOk := false;
      } else if outcome.okField.None? {
        // the body is not JSON or has no boolean `ok`: parsing it throws
        fileOk := false;
      }
      // otherwise `ok` is true or false, and either way only reported
    }
  }
}
