# StandardSlackService, modelled in Dafny

This project models the decision logic of `StandardSlackService` in the Jenkins Slack plugin. The service posts a build notification to every configured Slack channel through the team's webhook. When every post succeeds, it also uploads files to those channels.

The HTTP client is replaced by an outcome oracle. `Transport.Network` holds a function `respond(n, request)`. That function gives the outcome of the `n`-th POST executed, which is either an exception or a status with the JSON body's boolean `ok` member. The network also keeps a log of every POST executed, in order. Every property about "which requests, in which order" is stated against that log.

Modules:

- `Wrappers` (`wrappers.dfy`): `Option`, which stands for Java's nullable values.
- `ChannelList` (`channel_list.dfy`): the constructor's `roomId.split("[,; ]+")`, with Java's `String.split` semantics.
  - No match gives the input itself as the only element, so `""` gives `[""]`.
  - Otherwise the result is the pieces between maximal delimiter runs, and trailing empty pieces are dropped. So `","` gives `[]`, and `",a"` gives `["", "a"]`.
  - The round trip is proved: tokens laid out with arbitrary delimiter runs split back into themselves.
  - Splitting loses only delimiters.
- `SlackApi` (`slack_api.dfy`):
  - the webhook and upload URLs;
  - the attachment payload as a datatype, with a reader that inverts it;
  - the requests and outcomes;
  - the request sequences `publish` and `uploadFiles` send.
- `Transport` (`transport.dfy`):
  - the `Network` oracle class;
  - Java's `String.trim`;
  - the client settings that `getHttpClient` derives from the proxy configuration.
- `StandardSlack` (`standard_slack_service.dfy`): the class `StandardSlackService`.
  - It has the fields `host`, `teamDomain`, `token`, `roomIds` and `roomIdsStr`.
  - Its methods are the constructor, `SetHost`, the three `publish` overloads and `UploadFiles`. Each loop body is split into a helper method: `PostToChannel` and `UploadFile`.
- `Scenarios` (`scenarios.dfy`): client methods that use only the class's contracts to settle concrete cases.

Points where the code's behaviour is easy to misread:

- The split pattern contains a literal space, not general white space. A tab or a newline does not separate channels.
- The webhook host is `teamDomain + "." + host`. The upload URL is `"https://" + host + "/api/files.upload"`. Here `host` is `"slack.com"` until `setHost` changes it, so neither URL is fixed.
- Some uploads throw before any POST is sent, and are caught:
  - When the upload token is `null`, building the multipart `token` part throws.
  - The multipart `StringPart` also refuses a value containing the NUL character U+0000. So a NUL in the upload token or in the raw channel string makes building the `token` or `channels` part throw.
  - When a file is not a readable regular file, building the `file` part throws.
  - In each case that file sends no POST and makes the upload result `false`.
- A channel string made only of delimiters gives no channels. `publish` then sends nothing and returns `true`, so files are uploaded.
- A 200 upload response with `ok:false` does not make `uploadFiles` return `false`. This behaviour is kept as written; `Scenarios.UploadRejectedStillTrue` exhibits it.

## Model

| member | source | states |
|---|---|---|
| `ChannelList.Split` | src/main/java/jenkins/plugins/slack/StandardSlackService.java:40 | No channel contains `,`, `;` or a space. Every channel after the first is non-empty, so trailing empty tokens are dropped. The result is empty exactly when the string is non-empty and made only of delimiters. |
| `ChannelList.SplitJoin` | src/main/java/jenkins/plugins/slack/StandardSlackService.java:40 | Splitting undoes joining. Tokens laid out with any non-empty delimiter runs between them, and an optional run after a non-empty last token, split back into exactly those tokens. |
| `ChannelList.SplitKeepsContent` | src/main/java/jenkins/plugins/slack/StandardSlackService.java:40 | The concatenated channels are the raw string with its delimiters removed. No other character is lost, added or reordered. |
| `ChannelList.Pieces` | src/main/java/jenkins/plugins/slack/StandardSlackService.java:40 | The pieces between maximal delimiter runs are never fewer than one and contain no delimiter. Interior pieces are non-empty, and a string that starts with a non-delimiter has a non-empty first piece. |
| `ChannelList.DropTrailingEmpty` | src/main/java/jenkins/plugins/slack/StandardSlackService.java:40 | The result is the longest prefix that does not end in an empty string, and everything removed is empty. This is `split`'s limit-0 trimming. |
| `ChannelList.SplitMixedSeparators` | src/main/java/jenkins/plugins/slack/StandardSlackService.java:40 | `"a,b; c"` splits into `["a", "b", "c"]`. |
| `ChannelList.SplitBuildReleases` | src/main/java/jenkins/plugins/slack/StandardSlackService.java:40 | `"build, releases"` splits into `["build", "releases"]`. |
| `ChannelList.SplitLeadingDelimiter` | src/main/java/jenkins/plugins/slack/StandardSlackService.java:40 | A leading delimiter keeps a leading empty channel: `",general"` gives `["", "general"]`. |
| `ChannelList.SplitTrailingDelimiter` | src/main/java/jenkins/plugins/slack/StandardSlackService.java:40 | A trailing delimiter adds no channel: `"ops, dev;"` gives `["ops", "dev"]`. |
| `SlackApi.WebhookUrlParts` | src/main/java/jenkins/plugins/slack/StandardSlackService.java:56 | The webhook URL is `https`. Its authority is `teamDomain.host` and the rest is `/services/hooks/jenkins-ci?token=` followed by the token. This holds when neither the domain nor the host contains `/`. |
| `SlackApi.UploadUrlParts` | src/main/java/jenkins/plugins/slack/StandardSlackService.java:128 | The upload URL's authority is the host alone, not the team's domain, and its path is `/api/files.upload`. |
| `SlackApi.WebhookPayload` | src/main/java/jenkins/plugins/slack/StandardSlackService.java:63-83 | Reading the payload back gives exactly the channel, message and color it was built from. |
| `SlackApi.ReadPayloadExact` | src/main/java/jenkins/plugins/slack/StandardSlackService.java:63-83 | Only the `publish` shape is read as a notification. That shape is one attachment with `fallback` = message, the given `color`, `fields` = `[{short: false, value: message}]` and `mrkdwn_in` = `["pretext", "text", "fields"]`, in an envelope with `channel`. |
| `SlackApi.WebhookRequests` | src/main/java/jenkins/plugins/slack/StandardSlackService.java:55-59 | There is exactly one webhook request per channel. |
| `SlackApi.WebhookRequestsAt` | src/main/java/jenkins/plugins/slack/StandardSlackService.java:55-85 | The `i`-th webhook request goes to the webhook URL as a form `payload`. That payload carries the notification for the `i`-th channel. |
| `SlackApi.UploadRequests` | src/main/java/jenkins/plugins/slack/StandardSlackService.java:127-141 | When the string parts cannot be built (no upload token, or a NUL in the token or the channel string), no upload request is sent. There are never more requests than files. |
| `SlackApi.UploadRequestsAll` | src/main/java/jenkins/plugins/slack/StandardSlackService.java:127-141 | With a token, no NUL in the string parts and only readable files, there is one upload request per file, in order. Each has the parts `token`, `channels` (the raw string) and `file`. |
| `SlackApi.UploadRequestsReadable` | src/main/java/jenkins/plugins/slack/StandardSlackService.java:127-162 | When the string parts can be built, the requests are exactly those of the readable files, in order. Their number is the number of readable files. The request for a readable `files[j]` comes right after those of the readable files before it. So an unreadable file does not stop the readable files after it. |
| `SlackApi.UploadRequestsSkipUnreadable` | src/main/java/jenkins/plugins/slack/StandardSlackService.java:138 | A file that cannot be read gets no upload request: no request carries it, so there are fewer requests than files. |
| `SlackApi.UploadRequestsCarryReadable` | src/main/java/jenkins/plugins/slack/StandardSlackService.java:138 | Every upload request is multipart, and every file it carries is readable. |
| `SlackApi.CountReadable` | src/main/java/jenkins/plugins/slack/StandardSlackService.java:138 | The number of readable files is at most the number of files. It equals that number exactly when every file is readable. |
| `Transport.Network.Execute` | src/main/java/jenkins/plugins/slack/StandardSlackService.java:87-88 | Executing a POST appends it to the log. The outcome is the oracle's answer for that call number and that request. |
| `Transport.Trim` | src/main/java/jenkins/plugins/slack/StandardSlackService.java:179 | `trim` gives the empty string exactly when every character is at most U+0020. Otherwise the result starts and ends with a kept character. |
| `Transport.TrimKeepsMiddle` | src/main/java/jenkins/plugins/slack/StandardSlackService.java:179 | `trim` keeps the part of the string between a blank prefix and a blank suffix. |
| `Transport.HttpClientSettings` | src/main/java/jenkins/plugins/slack/StandardSlackService.java:170-190 | The client uses the proxy's host and port exactly when a proxy is configured. It attaches the proxy's user name and password exactly when the user name is present and not blank after trimming. |
| `StandardSlack.StandardSlackService.constructor` | src/main/java/jenkins/plugins/slack/StandardSlackService.java:29-43 | `host` starts as `"slack.com"`. `roomIds` is the split of the raw string, and `roomIdsStr` is the raw string unchanged. |
| `StandardSlack.StandardSlackService.SetHost` | src/main/java/jenkins/plugins/slack/StandardSlackService.java:192-194 | Sets `host`; nothing else changes. |
| `StandardSlack.StandardSlackService.Publish` | src/main/java/jenkins/plugins/slack/StandardSlackService.java:45-47 | Sends and returns exactly what `publish(message, "warning")` does. |
| `StandardSlack.StandardSlackService.PublishColored` | src/main/java/jenkins/plugins/slack/StandardSlackService.java:49-51 | Sends and returns exactly what the full `publish` does with a null file list: the webhook POSTs and no upload. |
| `StandardSlack.StandardSlackService.PublishWithFiles` | src/main/java/jenkins/plugins/slack/StandardSlackService.java:53-113 | Sends one webhook POST per channel, in order, and none is skipped after a failure. Returns true iff every one of those POSTs returned 200 without throwing. The upload POSTs follow iff that result is true and the file list is non-null and non-empty. The upload's result does not affect the returned value. |
| `StandardSlack.StandardSlackService.PostToChannel` | src/main/java/jenkins/plugins/slack/StandardSlackService.java:55-101 | One webhook POST for the channel is sent. It counts as delivered iff it returned 200 without throwing. |
| `StandardSlack.StandardSlackService.UploadFiles` | src/main/java/jenkins/plugins/slack/StandardSlackService.java:116-168 | A null or empty list returns false and sends nothing. Otherwise the method sends the upload POSTs of all files, in order, and none is skipped after a failure. It returns true iff there is a token, neither the token nor the channel string contains a NUL, every file is readable, and every POST returned 200 with a boolean `ok`, true or false. |
| `StandardSlack.StandardSlackService.UploadFile` | src/main/java/jenkins/plugins/slack/StandardSlackService.java:127-165 | Without a token, with a NUL in the token or the channel string, or with an unreadable file, nothing is sent and the file fails. Otherwise one POST is sent. The file fails iff that POST threw, returned a status other than 200, or its body lacked a boolean `ok`. |
| `Scenarios.TwoChannelsDelivered` | src/main/java/jenkins/plugins/slack/StandardSlackService.java:53-113 | Channels `"build, releases"` with every POST answered 200 give two POSTs, to `build` and then `releases`, with the same attachment. The result is true. |
| `Scenarios.FirstChannelFails` | src/main/java/jenkins/plugins/slack/StandardSlackService.java:53-113 | A 500 from the first channel still lets the second be posted to. The result is false and no file is uploaded. |
| `Scenarios.UploadRejectedStillTrue` | src/main/java/jenkins/plugins/slack/StandardSlackService.java:143-156 | An upload answered 200 with `ok:false` leaves the upload result true. |
| `Scenarios.UploadWithoutOkIsFalse` | src/main/java/jenkins/plugins/slack/StandardSlackService.java:147-162 | An upload answered 200 whose body has no `ok` makes the upload result false. |
| `Scenarios.NoChannelsIsSuccess` | src/main/java/jenkins/plugins/slack/StandardSlackService.java:40-59 | A channel string of delimiters only makes `publish` send nothing and return true. |
| `Scenarios.UnreadableFileSkipped` | src/main/java/jenkins/plugins/slack/StandardSlackService.java:135-162 | An unreadable first file fails the upload without a POST. The readable file after it is still posted. |
| `Scenarios.TokenWithNulSendsNothing` | src/main/java/jenkins/plugins/slack/StandardSlackService.java:136 | An upload token containing a NUL sends nothing, and the upload fails. |

## Left out

- Apache HttpClient, `PostMethod`, multipart encoding, the UTF-8 charset setting and connection release are replaced by the `Network` oracle. These are foreign library I/O.
- JSON text is not modelled. The payload is a datatype, and the response body is reduced to its `ok` member. `org.json`'s `getBoolean` also accepts the strings `"true"` and `"false"`; in the model that case counts as a present boolean `ok`.
- The model does not cover the `PostMethod` constructor and `getHttpClient`, which run outside the `try` block, or the exceptions they could raise. For example, a malformed URL would make `PostMethod` throw, and that exception would leave `publish`. The model assumes every URL is accepted.
- The logger and the `TaskListener` are left out, so the constructor takes no listener. Their output has no effect on any result.
- File contents and `file.length()` are filesystem I/O. A file is modelled by its path and by whether it is a readable regular file.
- The model has no null `teamDomain`, `token`, `message` or `color`. In Java a null would print as `"null"` in the URL or remove a JSON key. A null channel string makes the Java constructor throw; the model's constructor requires a string.
- `getHttpClient` reads the process-wide Jenkins instance. An absent Jenkins instance and an absent proxy are both `None`. The password is passed through without being checked.
- The `SlackService` interface declares the three `publish` signatures and has no behaviour. The class's methods stand for it.
- Concurrent calls from several jobs are not modelled. The service keeps no state between calls except `host`.
