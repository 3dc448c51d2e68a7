# Kookies chat-bot plugin — a Dafny model of its request and reader kernels

Kookies is a plugin for the Mirai QQ chat-bot runtime. Each feature handler reads the bot's
configuration, sends HTTP requests to the Gaode map service or the Baidu ERNIE chat
service, and posts a formatted reply to the group. This project models the small
sequential kernels inside that glue:

* **FileManager** (`file_manager.dfy`): the three line readers. `readBotInfo` turns the
  lines of the bot-info resource into conversation turns. `readAnswerBook` numbers lines
  from 1. `readTemplateFile` writes every line back followed by the line separator.
* **ApiRequester** (`api_requester.dfy`): the Gaode around-search and geocode URLs, the
  Baidu OAuth form body, the chat URL and the chat body. It also models the call order
  of a chat request: read the configuration, make one token request, then make one chat
  request, with no token cached between calls.
* **LuckyDayServiceImpl** (`lucky_day.dfy`): the lucky-day command. That covers the
  authorised / duplicate / compute branch, the prompt (bot-info turns plus one user
  question), the two reply layouts, and how failures are mapped.

The supporting modules are `results.dfy` (Option, Fault and Outcome), `messages.dfy`
(roles, turns, alternation and exchange predicates), `text.dfy` (join, split and
strip, with their round trips), `decimal.dfy` (decimal text of integers and its reader)
and `query.dfy` (name=value query strings and how a server reads them back).

Everything outside the code is an input:
* A resource file is its sequence of lines. The platform line separator is a parameter.
* The configuration file is `Outcome<Config>`: the keys, or the fault from reading or
  decoding it.
* The HTTP client is a function from a request to the response body or a fault.
* The JSON readers (`access_token` field, chat `result` field) are functions to `Option`.
* The permission checks are booleans, and the random draws are `Percent` values in [0,100).
* A message sent to the group is a sequence of parts (a mention or plain text).

Constants whose values are not in the modelled files are record parameters:
`GaodeConstants`, `BaiduConstants` and `MsgConstants`. These are the endpoint URLs,
OFFSET, PAGE, EXTENSIONS, OUTPUT, GRANT_TYPE and the user-facing error texts.

Error mapping follows the code. An `IOException` while reading the bot-info file becomes
`DataLoadException`. An `IOException` anywhere in the chat call becomes `RequestException`:
that covers the config read, the token call, the token body, the chat call and the chat
body. Failures of the JSON libraries are not caught. Neither is the
`NullPointerException` of a missing resource stream. The model calls these
`UncheckedFault` / `Unchecked`. In the code, a malformed config or reply escapes as
whatever runtime exception Gson or org.json throws.

## Model

| member | source | states |
|---|---|---|
| FileManager.BotInfoFrom | src/main/java/org/kookies/mirai/commen/utils/FileManager.java:117-135 | from counter `index` on, the turn for the i-th remaining line holds that line unchanged, and its role is user exactly when index + i is odd |
| FileManager.ReadBotInfo | src/main/java/org/kookies/mirai/commen/utils/FileManager.java:111-138 | one turn per line, in order, each holding its line verbatim; turns alternate user/assistant starting with user; no lines give no turns |
| FileManager.BotInfoContents | src/main/java/org/kookies/mirai/commen/utils/FileManager.java:119-134 | reading the texts back out of the turns gives exactly the file's lines |
| FileManager.BotInfoPairs | src/main/java/org/kookies/mirai/commen/utils/FileManager.java:103-138 | the turns form whole user/assistant exchanges if and only if the line count is even; there are ceil(n/2) user and floor(n/2) assistant turns |
| FileManager.NumberFrom | src/main/java/org/kookies/mirai/commen/utils/FileManager.java:93-97 | the loop adds keys index..index+n-1 with line k-index under key k and keeps every other entry it started with |
| FileManager.ReadAnswerBook | src/main/java/org/kookies/mirai/commen/utils/FileManager.java:89-100 | the keys are exactly 1..n and key i holds line i; an empty file gives the empty map |
| FileManager.AnswerBookRoundTrip | src/main/java/org/kookies/mirai/commen/utils/FileManager.java:89-100 | reading the book's entries in key order gives back the lines |
| FileManager.ReadTemplateFile | src/main/java/org/kookies/mirai/commen/utils/FileManager.java:25-38 | no lines give ""; otherwise the text starts with the first line and a separator and ends with the separator |
| FileManager.TemplateIsJoin | src/main/java/org/kookies/mirai/commen/utils/FileManager.java:32-37 | for any separator, of any length, the template text equals the lines joined by that separator with one more separator at the end |
| FileManager.TemplateRoundTrip | src/main/java/org/kookies/mirai/commen/utils/FileManager.java:25-38 | for a one-character separator that no line contains, splitting the text at it gives the lines followed by "" |
| ApiRequester.AroundSearchUrlIsRendered | src/main/java/org/kookies/mirai/commen/utils/ApiRequester.java:44-52 | the concatenated URL is the endpoint, "?", and the eight name=value fields joined by "&" |
| ApiRequester.AroundSearchUrlReadsBack | src/main/java/org/kookies/mirai/commen/utils/ApiRequester.java:43-52 | the URL reads back as location, types, radius, sortrule from the request, then offset, page, extensions from the constants, then the key last, all verbatim |
| ApiRequester.SendAroundSearchRequest | src/main/java/org/kookies/mirai/commen/utils/ApiRequester.java:38-57 | a config failure issues no request and is returned; otherwise exactly one GET without body or content type goes to the around-search URL with the configured key, and its response is returned unchanged |
| ApiRequester.AddressUrlIsRendered | src/main/java/org/kookies/mirai/commen/utils/ApiRequester.java:75-79 | the concatenated URL is the endpoint, "?", and address, city, output and key fields joined by "&" |
| ApiRequester.AddressUrlReadsBack | src/main/java/org/kookies/mirai/commen/utils/ApiRequester.java:74-81 | the geocode URL reads back as exactly address, city, output, key in that order, with the caller's values verbatim |
| ApiRequester.AddressIsNotEscaped | src/main/java/org/kookies/mirai/commen/utils/ApiRequester.java:75-79 | values are not escaped: an address holding "&" makes the URL read back with more than four parameters |
| ApiRequester.SendAddressRequest | src/main/java/org/kookies/mirai/commen/utils/ApiRequester.java:68-85 | a config failure issues no request; otherwise exactly one GET without body goes to the geocode URL with the configured key, and its response is returned unchanged |
| ApiRequester.TokenFormReadsBack | src/main/java/org/kookies/mirai/commen/utils/ApiRequester.java:150-153 | the token form reads back as grant_type, client_id, client_secret in that order, with the configured keys verbatim |
| ApiRequester.GetBaiduAccessToken | src/main/java/org/kookies/mirai/commen/utils/ApiRequester.java:146-167 | a config failure issues nothing; otherwise exactly one form POST to the token URL; a token is returned exactly when that call succeeds and its reply has an access_token, and it is that field; a failed token call returns its own fault unchanged, and a reply without an access_token ends in an unchecked failure |
| ApiRequester.ChatUrlReadsBack | src/main/java/org/kookies/mirai/commen/utils/ApiRequester.java:103-104 | the chat URL names the chat endpoint and carries the token as its only parameter |
| ApiRequester.ChatUrlDeterminesToken | src/main/java/org/kookies/mirai/commen/utils/ApiRequester.java:103-104 | two chat URLs are equal only if they were built with the same token |
| ApiRequester.CreateBaiduRequestBody | src/main/java/org/kookies/mirai/commen/utils/ApiRequester.java:120-129 | the body carries the messages unchanged and in order, stream is false, and the user id reads back as the sender's number |
| ApiRequester.SendBaiduRequest | src/main/java/org/kookies/mirai/commen/utils/ApiRequester.java:98-111 | the config is read first; the token request always comes first; a chat request is made exactly when a token was obtained; it is a JSON POST of the built body to the URL carrying that call's own token; its response is returned unchanged; never more than two requests; when no chat request is made, the token step's failure is what comes back |
| ApiRequester.ChatCallFetchesOneToken | src/main/java/org/kookies/mirai/commen/utils/ApiRequester.java:98-111 | with a readable config, one chat call posts exactly one token request, whether or not the chat request follows |
| ApiRequester.OneTokenRequestPerCall | src/main/java/org/kookies/mirai/commen/utils/ApiRequester.java:98-111 | with a readable config, a session of n chat calls posts exactly n token requests, so no token is reused |
| LuckyDay.PromptListsScores | src/main/java/org/kookies/mirai/plugin/service/Impl/LuckyDayServiceImpl.java:134-142 | the question reads back as the scores in the order wealth, school, romance |
| LuckyDay.CreateMessages | src/main/java/org/kookies/mirai/plugin/service/Impl/LuckyDayServiceImpl.java:124-147 | an I/O failure gives DataLoadException with the bot-info error text, an unchecked failure is not caught; otherwise the bot-info turns unchanged followed by exactly one user turn with the question |
| LuckyDay.PromptAlternates | src/main/java/org/kookies/mirai/plugin/service/Impl/LuckyDayServiceImpl.java:124-147 | the prompt alternates user/assistant throughout, ending on a user turn, if and only if the bot-info file has an even number of lines |
| LuckyDay.ScoreLineReadsBack | src/main/java/org/kookies/mirai/plugin/service/Impl/LuckyDayServiceImpl.java:86-88 | a score line is its caption, the score in decimal, then "%\n", and reads back as the score |
| LuckyDay.FortuneReplyReadsBack | src/main/java/org/kookies/mirai/plugin/service/Impl/LuckyDayServiceImpl.java:78-93 | the report mentions the sender, then " ", the header, then wealth, romance and school with a trailing "%", then the AI text unchanged |
| LuckyDay.NoticeReply | src/main/java/org/kookies/mirai/plugin/service/Impl/LuckyDayServiceImpl.java:102-111 | the notice reads back as the mentioned sender and the text unchanged, after a single " " part, and it can never be read as a fortune report |
| LuckyDay.GetResponse | src/main/java/org/kookies/mirai/plugin/service/Impl/LuckyDayServiceImpl.java:158-173 | makes exactly the chat call's requests; any I/O fault becomes RequestException with the request error text; any unchecked fault, and a successful reply whose result field does not decode, end in an uncaught exception; a text comes back exactly when the call succeeds and its reply decodes, and it is the decoded result |
| LuckyDay.HandleLuckyDay | src/main/java/org/kookies/mirai/plugin/service/Impl/LuckyDayServiceImpl.java:46-67 | unauthorised: nothing sent, nothing requested; authorised but already used: only the mention, " " and the duplicate notice; a message is sent exactly when authorised and no exception escaped; a bot-info failure requests and sends nothing; at most two requests |
| LuckyDay.IoFailureSendsNothing | src/main/java/org/kookies/mirai/plugin/service/Impl/LuckyDayServiceImpl.java:158-169 | an I/O failure of the chat call sends no message and surfaces RequestException |
| LuckyDay.SuccessfulReport | src/main/java/org/kookies/mirai/plugin/service/Impl/LuckyDayServiceImpl.java:53-62 | after a sent report: two requests were made; the chat body is exactly the body built from the bot-info turns plus the question about the drawn scores, with the sender's id; the chat reply decoded; and the message sent is the fortune report for those draws ending with that decoded text, which mentions the sender and shows the drawn scores |

## Left out

- File-system and classpath I/O (`readJsonFile`, `writeJsonFile`, `write`, `readJsonArray`, `getResourceAsStream`): external I/O. A file is the line sequence its reader returns, or the outcome of reading it.
- Splitting file text into lines (`BufferedReader.readLine`): the readers start from the lines.
- FileManager.TemplateRoundTrip: proved only for a one-character separator, so the two-character "\r\n" of some platforms is not covered by the split-back direction. FileManager.TemplateIsJoin holds for every separator.
- HTTP execution, the 30-second timeouts, response objects and headers other than Content-Type: external I/O. The network is a function from request to body-or-fault.
- Content-Type values and the JSON text of the chat body (Gson serialisation): library calls. The body is the structured `ChatBody`, and the media types are the tags FormMedia and JsonMedia.
- The float sampling fields temperature 0.9, top_p 1.0 and penalty_score 1.4: floating-point constants with no behaviour here.
- Decoding of `Config`, of the token reply and of `ChatResponse` (Gson and org.json): library calls. They are inputs returning Option or Outcome.
- OkHttp's URL validation, which rejects a malformed URL with an IllegalArgumentException, and its canonicalisation of characters such as spaces: library behaviour. The model's reader splits on '?', '&' and '=' only.
- `java.util.Random`: the draws are inputs of type Percent, which is the range nextInt(100) guarantees.
- `Permission.checkPermission` and `DuplicatePermission.checkPermission`: they are not part of this model, so they are boolean inputs. Any state the duplicate check records is not modelled.
- The Mirai runtime (`Group.sendMessage`, `MiraiCode`): the sent message is a sequence of parts, and the mention is `At(sender)`.
- The role strings of AIRoleType and the values of the constants classes: they are not part of this model, so Role is an enumeration and the constants are parameters.
- The 32-bit `int` counter in `readBotInfo` and `readAnswerBook`: it overflows only past 2^31 lines. The model uses unbounded integers.
- build.gradle.kts and SingleResponse.java: build configuration and a data holder with no behaviour.
