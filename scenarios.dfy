/**
 * Client code that uses only the contracts of StandardSlackService to
 * settle concrete situations: what is sent for a two-channel string, and
 * how the upload treats an `ok:false` answer, an unreadable file and a
 * token it cannot send.
 */
module Scenarios {
  import opened Wrappers
  import opened ChannelList
  import opened SlackApi
  import opened Transport
  import opened StandardSlack

  /**
   * Channel string "build, releases", message "Build #42 failed", color
   * "danger", every POST answered 200: two webhook POSTs, to "build" and
   * then "releases", with the same attachment, and the result is true.
   */
  method TwoChannelsDelivered() returns (result: bool, sent: seq<Request>)
    ensures result
    ensures |sent| == 2
    ensures sent[0].body.Form? && ReadPayload(sent[0].body.payload) == Some(Notification("build", "Build #42 failed", "danger"))
    ensures sent[1].body.Form? && ReadPayload(sent[1].body.payload) == Some(Notification("releases", "Build #42 failed", "danger"))
  {
    var net := new Network((n: nat, r: Request) => Response(HttpOk, None));
    SplitBuildReleases();
    var service := new StandardSlackService("acme", "T0K3N", "build, releases", net);
    result := service.PublishColored("Build #42 failed", "danger");
    sent := net.log;
    WebhookRequestsAt("acme", DefaultHost, "T0K3N", ["build", "releases"], "Build #42 failed", "danger", 0);
    WebhookRequestsAt("acme", DefaultHost, "T0K3N", ["build", "releases"], "Build #42 failed", "danger", 1);
  }

  /**
   * When the first of two channels gets a 500, the second is still posted
   * to, the result is false, and the files are not uploaded.
   */
  method FirstChannelFails(files: seq<LocalFile>) returns (result: bool, sent: nat)
    ensures !result
    ensures sent == 2
  {
    var net := new Network((n: nat, r: Request) => if n == 0 then Response(500, None) else Response(HttpOk, None));
    SplitBuildReleases();
    var service := new StandardSlackService("acme", "T0K3N", "build, releases", net);
    ghost var posts := WebhookRequests("acme", DefaultHost, "T0K3N", ["build", "releases"], "Build #42 failed", "danger");
    assert !Delivered(net.respond(0, posts[0]));
    result := service.PublishWithFiles("Build #42 failed", "danger", Some(files), Some("xoxp"));
    sent := |net.log|;
  }

  /** An upload answered 200 with `ok:false` leaves the upload result true. */
  method UploadRejectedStillTrue() returns (result: bool)
    ensures result
  {
    var net := new Network((n: nat, r: Request) => Response(HttpOk, Some(false)));
    var service := new StandardSlackService("acme", "T0K3N", "build", net);
    var files := [LocalFile("build.log", true)];
    result := service.UploadFiles(Some(files), Some("xoxp"));
    UploadRequestsAll(DefaultHost, "xoxp", "build", files);
  }

  /** An upload whose 200 body has no `ok` member makes the upload result false. */
  method UploadWithoutOkIsFalse() returns (result: bool)
    ensures !result
  {
    var net := new Network((n: nat, r: Request) => Response(HttpOk, None));
    var service := new StandardSlackService("acme", "T0K3N", "build", net);
    var files := [LocalFile("build.log", true)];
    result := service.UploadFiles(Some(files), Some("xoxp"));
    UploadRequestsAll(DefaultHost, "xoxp", "build", files);
  }

  /**
   * A channel string of delimiters only yields no channel: `publish` sends
   * nothing and reports success.
   */
  method NoChannelsIsSuccess() returns (result: bool, sent: nat)
    ensures result
    ensures sent == 0
  {
    var net := new Network((n: nat, r: Request) => Thrown);
    var service := new StandardSlackService("acme", "T0K3N", ", ;", net);
    result := service.Publish("Build #42 failed");
    sent := |net.log|;
  }

  /**
   * An unreadable first file fails the upload without a POST, and the
   * readable file after it is still sent: one POST, for "build.log".
   */
  method UnreadableFileSkipped() returns (result: bool, sent: seq<Request>)
    ensures !result
    ensures sent == [UploadRequest(DefaultHost, "xoxp", "build", LocalFile("build.log", true))]
  {
    var net := new Network((n: nat, r: Request) => Response(HttpOk, Some(true)));
    var service := new StandardSlackService("acme", "T0K3N", "build", net);
    var files := [LocalFile("missing.log", false), LocalFile("build.log", true)];
    result := service.UploadFiles(Some(files), Some("xoxp"));
    sent := net.log;
    UploadRequestsReadable(DefaultHost, "xoxp", "build", files);
    assert files[..1] == [files[0]];
  }

  /** An upload token containing a NUL character sends nothing and fails. */
  method TokenWithNulSendsNothing() returns (result: bool, sent: nat)
    ensures !result
    ensures sent == 0
  {
    var net := new Network((n: nat, r: Request) => Response(HttpOk, Some(true)));
    var service := new StandardSlackService("acme", "T0K3N", "build", net);
    var files := [LocalFile("build.log", true)];
    result := service.UploadFiles(Some(files), Some("xo\0xp"));
    sent := |net.log|;
  }
}
