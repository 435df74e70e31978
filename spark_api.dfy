/** The chat-session logic of the Spark client (src/network/SparkAPI.ts):
    domain selection, conversation normalisation, the token cap, system
    message stripping, the signed WebSocket URL, and the `TTSRecorder`
    object whose handlers turn inbound frames into an accumulated reply. */
module SparkApi {
  import opened Wrappers
  import opened Text

  // ---------------------------------------------------------------------------
  // Messages, parameters and requests
  // ---------------------------------------------------------------------------

  datatype Role = System | User | Assistant

  datatype ChatMessage = ChatMessage(role: Role, content: string)

  /** `RequestChatParameters`: every field may be missing. `max_tokens` is
      modelled as an integer. */
  datatype ChatParams = ChatParams(temperature: Option<real>, maxTokens: Option<int>, topK: Option<int>)

  /** The spread of a missing parameter object: no field at all. */
  const NoParams := ChatParams(None, None, None)

  /** The parts of a parsed WebSocket URL that the client reads. */
  datatype Url = Url(host: string, pathname: string)

  /** `wss://spark-api.xf-yun.com/v3.5/chat`, the default endpoint. */
  const DefaultWssUrl := Url("spark-api.xf-yun.com", "/v3.5/chat")

  /** The request frame: header, chat parameters and message text. */
  datatype Request = Request(
    appId: string, uid: string, domain: string, params: ChatParams, chatId: string, text: seq<ChatMessage>)

  /** Why `generateMessages` throws: the list is empty, so reading the last
      role fails, or the last role is not `user`. */
  datatype SendError = LastMessageUndefined | LastMessageNotUser

  function Min(a: int, b: int): int
  {
    if a <= b then a else b
  }

  // ---------------------------------------------------------------------------
  // getDomain and the domain priority rule
  // ---------------------------------------------------------------------------

  /** `getDomain`: the model version served at a URL path. */
  function GetDomain(url: Url): (domain: string)
    ensures domain == "general" <==> url.pathname == "/v1.1/chat"
    ensures domain == "generalv2" <==> url.pathname == "/v2.1/chat"
    ensures domain == "generalv3" <==> url.pathname == "/v3.1/chat"
    ensures domain == "generalv3.5" <==>
      url.pathname !in {"/v1.1/chat", "/v2.1/chat", "/v3.1/chat"}
  {
    match url.pathname
    case "/v1.1/chat" => "general"
    case "/v2.1/chat" => "generalv2"
    case "/v3.1/chat" => "generalv3"
    case "/v3.5/chat" => "generalv3.5"
    case _ => "generalv3.5"
  }

  /** `API_Domain || getDomain(WssURL)`: a non-empty explicit domain wins. */
  function SelectDomain(apiDomain: Option<string>, wssUrl: Url): (domain: string)
    ensures apiDomain.Some? && apiDomain.value != "" ==> domain == apiDomain.value
    ensures apiDomain.None? || apiDomain.value == "" ==>
      domain == GetDomain(wssUrl) && domain in {"general", "generalv2", "generalv3", "generalv3.5"}
  {
    if apiDomain.Some? && apiDomain.value != "" then apiDomain.value else GetDomain(wssUrl)
  }

  // ---------------------------------------------------------------------------
  // generateMessages
  // ---------------------------------------------------------------------------

  /** `Array.prototype.splice(start, deleteCount)` on a list, without the
      removed elements it returns. */
  function Splice<T>(a: seq<T>, start: nat, deleteCount: nat): (r: seq<T>)
    requires start + deleteCount <= |a|
    ensures |r| == |a| - deleteCount
    ensures forall k :: 0 <= k < start ==> r[k] == a[k]
    ensures forall k :: start <= k < |r| ==> r[k] == a[k + deleteCount]
  {
    a[..start] + a[start + deleteCount..]
  }

  /** What `generateMessages` promises: an error unless the last message is
      the user's; otherwise the last `min(n, 20)` messages. */
  function KeptHistory(conversations: seq<ChatMessage>): Result<seq<ChatMessage>, SendError>
  {
    var n := |conversations|;
    if n == 0 then Failure(LastMessageUndefined)
    else if conversations[n - 1].role != User then Failure(LastMessageNotUser)
    else Success(conversations[n - Min(n, 20)..])
  }

  /** `generateMessages`: clone, check the last role, then splice away all
      but the last 20 messages of the clone. */
  method GenerateMessages(conversations: seq<ChatMessage>) returns (r: Result<seq<ChatMessage>, SendError>)
    ensures r == KeptHistory(conversations)
  {
    var extracted := conversations;
    if |extracted| == 0 {
      return Failure(LastMessageUndefined);
    }
    if extracted[|extracted| - 1].role != User {
      return Failure(LastMessageNotUser);
    }
    if |extracted| > 20 {
      extracted := Splice(extracted, 0, |extracted| - 20);
      assert extracted == conversations[|conversations| - 20..];
    } else {
      assert extracted == conversations[0..];
    }
    return Success(extracted);
  }

  /** The call fails exactly when the last message is missing or not the
      user's; a success ends with that same user message. */
  lemma KeptHistoryLast(conversations: seq<ChatMessage>)
    ensures KeptHistory(conversations).Success? <==>
      |conversations| > 0 && conversations[|conversations| - 1].role == User
    ensures KeptHistory(conversations).Success? ==>
      var kept := KeptHistory(conversations).value;
      kept != [] && kept[|kept| - 1] == conversations[|conversations| - 1]
  {
  }

  /** The kept history is the suffix of length `min(n, 20)`, and the whole
      list when it is no longer than 20. */
  lemma KeptHistorySuffix(conversations: seq<ChatMessage>)
    requires KeptHistory(conversations).Success?
    ensures var kept := KeptHistory(conversations).value;
      |kept| == Min(|conversations|, 20) && |kept| <= 20
      && conversations == conversations[..|conversations| - |kept|] + kept
    ensures |conversations| <= 20 ==> KeptHistory(conversations).value == conversations
  {
    var n := |conversations|;
    assert conversations == conversations[..n - Min(n, 20)] + conversations[n - Min(n, 20)..];
  }

  // ---------------------------------------------------------------------------
  // The max_tokens cap
  // ---------------------------------------------------------------------------

  /** `{...chatParams}` with `max_tokens` capped at 4096 for domain `general`
      when it is truthy (present and non-zero). */
  function CappedParams(domain: string, chatParams: Option<ChatParams>): (p: ChatParams)
    ensures var given := if chatParams.Some? then chatParams.value else NoParams;
      p.temperature == given.temperature && p.topK == given.topK
      && (domain == "general" && given.maxTokens.Some? && given.maxTokens.value != 0 ==>
            p.maxTokens == Some(Min(given.maxTokens.value, 4096)))
      && (domain != "general" || given.maxTokens.None? || given.maxTokens.value == 0 ==>
            p.maxTokens == given.maxTokens)
  {
    var given := if chatParams.Some? then chatParams.value else NoParams;
    if domain == "general" && given.maxTokens.Some? && given.maxTokens.value != 0 then
      var m := given.maxTokens.value;
      given.(maxTokens := Some(if m >= 4096 then 4096 else m))
    else given
  }

  /** For `general` the value sent is never above 4096. */
  lemma CappedParamsBound(chatParams: Option<ChatParams>)
    ensures var p := CappedParams("general", chatParams); p.maxTokens.Some? ==> p.maxTokens.value <= 4096
  {
  }

  // ---------------------------------------------------------------------------
  // System stripping: `forEach` with `splice` on the same array
  // ---------------------------------------------------------------------------

  /** What the loop leaves: a `system` message is removed, and the message
      that slides into its index is then never visited, so it stays. */
  function StripSystem(msgs: seq<ChatMessage>): seq<ChatMessage>
  {
    if msgs == [] then []
    else if msgs[0].role != System then [msgs[0]] + StripSystem(msgs[1..])
    else if |msgs| == 1 then []
    else [msgs[1]] + StripSystem(msgs[2..])
  }

  /** The `forEach` over the normalised list that splices out each `system`
      message at the index being visited. `forEach` fixes the number of
      visits at the start and skips indices past the current end. */
  method StripSystemMessages(msgs: seq<ChatMessage>) returns (a: seq<ChatMessage>)
    ensures a == StripSystem(msgs)
  {
    a := msgs;
    var len := |a|;
    var index := 0;
    while index < len
      invariant |a| <= len && index <= len
      invariant var j := Min(index, |a|); a[..j] + StripSystem(a[j..]) == StripSystem(msgs)
      decreases len - index
    {
      if index < |a| && a[index].role == System {
        StripRemoveStep(a, index);
        a := Splice(a, index, 1);
      } else if index < |a| {
        StripKeepStep(a, index);
      }
      index := index + 1;
    }
    assert a[..|a|] == a;
  }

  /** Removing a system message at the visited index, and then moving past
      the message that slid into it, leaves the same final outcome. */
  lemma StripRemoveStep(a: seq<ChatMessage>, i: nat)
    requires i < |a| && a[i].role == System
    ensures var b := Splice(a, i, 1); var j := Min(i + 1, |b|);
      b[..j] + StripSystem(b[j..]) == a[..i] + StripSystem(a[i..])
  {
    var b := Splice(a, i, 1);
    if i + 1 <= |b| {
      assert a[i..][1..] == a[i + 1..] && a[i + 1..][1..] == a[i + 2..];
      assert StripSystem(a[i..]) == [a[i + 1]] + StripSystem(a[i + 2..]);
      assert b[..i + 1] == a[..i] + [a[i + 1]];
      assert b[i + 1..] == a[i + 2..];
    } else {
      assert a[i..] == [a[i]];
      assert b == a[..i];
    }
  }

  /** Visiting a message that is not a system message keeps it. */
  lemma StripKeepStep(a: seq<ChatMessage>, i: nat)
    requires i < |a| && a[i].role != System
    ensures a[..i + 1] + StripSystem(a[i + 1..]) == a[..i] + StripSystem(a[i..])
  {
    assert a[i..][1..] == a[i + 1..];
    assert a[..i + 1] == a[..i] + [a[i]];
  }

  /** `sub` is `full` with some elements left out, order kept. */
  predicate IsSubsequence<T(==)>(sub: seq<T>, full: seq<T>)
  {
    if sub == [] then true
    else if full == [] then false
    else if sub[0] == full[0] then IsSubsequence(sub[1..], full[1..])
    else IsSubsequence(sub, full[1..])
  }

  /** The messages of a list that are not `system`, in order. */
  function NonSystem(msgs: seq<ChatMessage>): seq<ChatMessage>
  {
    if msgs == [] then []
    else (if msgs[0].role == System then [] else [msgs[0]]) + NonSystem(msgs[1..])
  }

  /** Putting an element in front of the full list keeps a subsequence one. */
  lemma {:induction false} IsSubsequenceDrop<T>(sub: seq<T>, full: seq<T>)
    requires full != [] && IsSubsequence(sub, full[1..])
    ensures IsSubsequence(sub, full)
    decreases |full|, 0
  {
    if sub != [] && sub[0] == full[0] {
      IsSubsequenceTail(sub, full[1..]);
    }
  }

  /** Dropping the first element of a subsequence keeps it one. */
  lemma {:induction false} IsSubsequenceTail<T>(sub: seq<T>, full: seq<T>)
    requires sub != [] && IsSubsequence(sub, full)
    ensures IsSubsequence(sub[1..], full)
    decreases |full|, 1
  {
    if sub[0] == full[0] {
      IsSubsequenceDrop(sub[1..], full);
    } else {
      IsSubsequenceTail(sub, full[1..]);
      IsSubsequenceDrop(sub[1..], full);
    }
  }

  /** The stripped list is a subsequence of the input, keeps every non-system
      message in order, and removes only system messages. */
  lemma {:induction false} StripSystemSubsequence(msgs: seq<ChatMessage>)
    ensures IsSubsequence(StripSystem(msgs), msgs)
    ensures NonSystem(StripSystem(msgs)) == NonSystem(msgs)
    decreases |msgs|
  {
    if msgs == [] {
    } else if msgs[0].role != System {
      StripSystemSubsequence(msgs[1..]);
      assert ([msgs[0]] + StripSystem(msgs[1..]))[1..] == StripSystem(msgs[1..]);
    } else if |msgs| == 1 {
    } else {
      var rest := msgs[2..];
      StripSystemSubsequence(rest);
      var out := [msgs[1]] + StripSystem(rest);
      assert out[1..] == StripSystem(rest);
      assert msgs[1..][1..] == rest;
      IsSubsequenceDrop(out, msgs);
      assert NonSystem(msgs) == NonSystem(msgs[1..]);
    }
  }

  /** A final non-system message is never removed. */
  lemma {:induction false} StripSystemKeepsLast(msgs: seq<ChatMessage>)
    requires msgs != [] && msgs[|msgs| - 1].role != System
    ensures StripSystem(msgs) != [] && StripSystem(msgs)[|StripSystem(msgs)| - 1] == msgs[|msgs| - 1]
    decreases |msgs|
  {
    if msgs[0].role != System {
      if |msgs| > 1 {
        StripSystemKeepsLast(msgs[1..]);
      }
    } else if |msgs| > 2 {
      StripSystemKeepsLast(msgs[2..]);
    }
  }

  /** Where no two system messages are adjacent, every one of them goes. */
  lemma {:induction false} StripSystemSeparated(msgs: seq<ChatMessage>)
    requires forall k :: 0 <= k < |msgs| - 1 ==> msgs[k].role != System || msgs[k + 1].role != System
    ensures StripSystem(msgs) == NonSystem(msgs)
    decreases |msgs|
  {
    if msgs == [] {
    } else if msgs[0].role != System {
      StripSystemSeparated(msgs[1..]);
    } else if |msgs| > 1 {
      StripSystemSeparated(msgs[2..]);
      assert NonSystem(msgs[1..]) == [msgs[1]] + NonSystem(msgs[2..]);
    }
  }

  /** An example: from two system messages followed by a user message, only
      the first system message is removed. */
  lemma StripSystemAdjacent(a: string, b: string, q: string)
    ensures StripSystem([ChatMessage(System, a), ChatMessage(System, b), ChatMessage(User, q)])
      == [ChatMessage(System, b), ChatMessage(User, q)]
  {
    var msgs := [ChatMessage(System, a), ChatMessage(System, b), ChatMessage(User, q)];
    var last := [ChatMessage(User, q)];
    assert msgs[2..] == last;
    assert StripSystem(msgs) == [msgs[1]] + StripSystem(last);
    assert StripSystem(last) == last + StripSystem(last[1..]);
  }

  /** The message right after a removed system message is kept, whatever its
      role: it slides into the index just visited. The messages before the
      removed one are kept, and stripping resumes after the kept one. */
  lemma {:induction false} StripSystemSkipsNext(pre: seq<ChatMessage>, a: string, m: ChatMessage,
                                                post: seq<ChatMessage>)
    requires forall k :: 0 <= k < |pre| ==> pre[k].role != System
    ensures StripSystem(pre + [ChatMessage(System, a), m] + post) == pre + [m] + StripSystem(post)
    decreases |pre|
  {
    var msgs := pre + [ChatMessage(System, a), m] + post;
    if pre == [] {
      assert msgs[2..] == post;
    } else {
      assert msgs[1..] == pre[1..] + [ChatMessage(System, a), m] + post;
      StripSystemSkipsNext(pre[1..], a, m, post);
      assert pre + [m] + StripSystem(post) == [pre[0]] + (pre[1..] + [m] + StripSystem(post));
    }
  }

  // ---------------------------------------------------------------------------
  // webSocketSend: the request frame
  // ---------------------------------------------------------------------------

  /** The message list sent for a domain: the kept history, stripped of
      system messages unless the domain is `generalv3.5`. */
  function RequestText(domain: string, conversations: seq<ChatMessage>): Result<seq<ChatMessage>, SendError>
  {
    var kept :- KeptHistory(conversations);
    Success(if domain != "generalv3.5" then StripSystem(kept) else kept)
  }

  /** The request `webSocketSend` sends, or why it throws instead. */
  function BuildRequest(appId: string, uid: string, domain: string, chatParams: Option<ChatParams>,
                        chatId: Option<string>, freshChatId: string, conversations: seq<ChatMessage>)
    : Result<Request, SendError>
  {
    var text :- RequestText(domain, conversations);
    var id := if chatId.Some? && chatId.value != "" then chatId.value else freshChatId;
    Success(Request(appId, uid, domain, CappedParams(domain, chatParams), id, text))
  }

  /** Sending fails exactly when the last message is missing or not the
      user's; the text sent then ends with that user message and holds at
      most 20 messages, and for `generalv3.5` it is the kept history. */
  lemma RequestTextLast(domain: string, conversations: seq<ChatMessage>)
    ensures RequestText(domain, conversations).Success? <==>
      |conversations| > 0 && conversations[|conversations| - 1].role == User
    ensures RequestText(domain, conversations).Success? ==>
      var text := RequestText(domain, conversations).value;
      |text| <= 20 && text != [] && text[|text| - 1] == conversations[|conversations| - 1]
      && (domain == "generalv3.5" ==> text == KeptHistory(conversations).value)
  {
    KeptHistoryLast(conversations);
    if KeptHistory(conversations).Success? {
      var kept := KeptHistory(conversations).value;
      var last := conversations[|conversations| - 1];
      assert |kept| <= 20 && kept != [] && kept[|kept| - 1] == last by {
        KeptHistorySuffix(conversations);
      }
      if domain != "generalv3.5" {
        var text := StripSystem(kept);
        assert RequestText(domain, conversations) == Success(text);
        StripSystemKeepsLast(kept);
        StripSystemShorter(kept);
      } else {
        assert RequestText(domain, conversations) == Success(kept);
      }
    }
  }

  /** The text sent is a subsequence of the caller's conversation. */
  lemma RequestTextSubsequence(domain: string, conversations: seq<ChatMessage>)
    requires RequestText(domain, conversations).Success?
    ensures IsSubsequence(RequestText(domain, conversations).value, conversations)
  {
    var kept := KeptHistory(conversations).value;
    var n := |conversations|;
    assert kept == conversations[n - Min(n, 20)..];
    SuffixIsSubsequence(conversations, n - Min(n, 20));
    if domain != "generalv3.5" {
      StripSystemSubsequence(kept);
      IsSubsequenceTrans(StripSystem(kept), kept, conversations);
    }
  }

  lemma {:induction false} StripSystemShorter(msgs: seq<ChatMessage>)
    ensures |StripSystem(msgs)| <= |msgs|
    decreases |msgs|
  {
    if msgs != [] {
      if msgs[0].role != System {
        StripSystemShorter(msgs[1..]);
      } else if |msgs| > 1 {
        StripSystemShorter(msgs[2..]);
      }
    }
  }

  lemma {:induction false} IsSubsequenceRefl<T>(a: seq<T>)
    ensures IsSubsequence(a, a)
    decreases |a|
  {
    if a != [] {
      IsSubsequenceRefl(a[1..]);
    }
  }

  lemma {:induction false} SuffixIsSubsequence<T>(a: seq<T>, i: nat)
    requires i <= |a|
    ensures IsSubsequence(a[i..], a)
    decreases i
  {
    if i == 0 {
      assert a[0..] == a;
      IsSubsequenceRefl(a);
    } else {
      SuffixIsSubsequence(a[1..], i - 1);
      assert a[1..][i - 1..] == a[i..];
      IsSubsequenceDrop(a[i..], a);
    }
  }

  lemma {:induction false} IsSubsequenceTrans<T>(a: seq<T>, b: seq<T>, c: seq<T>)
    requires IsSubsequence(a, b) && IsSubsequence(b, c)
    ensures IsSubsequence(a, c)
    decreases |c|
  {
    if a == [] {
    } else if b[0] == c[0] {
      if a[0] == b[0] {
        IsSubsequenceTrans(a[1..], b[1..], c[1..]);
      } else {
        IsSubsequenceTrans(a, b[1..], c[1..]);
        IsSubsequenceDrop(a, c);
      }
    } else {
      IsSubsequenceTrans(a, b, c[1..]);
      IsSubsequenceDrop(a, c);
    }
  }

  // ---------------------------------------------------------------------------
  // generateWebsocketUrl: the string assembly around the signature
  // ---------------------------------------------------------------------------

  /** The signed text: host line, date line and request line. The host is
      the page's own host, not the target URL's. */
  function SigningString(pageHost: string, date: string, path: string): string
  {
    "host: " + pageHost + "\ndate: " + date + "\nGET " + path + " HTTP/1.1"
  }

  function AuthorizationOrigin(apiKey: string, signature: string): string
  {
    "api_key=\"" + apiKey + "\", algorithm=\"hmac-sha256\", headers=\"host date request-line\", signature=\""
    + signature + "\""
  }

  /** The query string after the endpoint: authorization, date and host.
      `hmacBase64(text, key)` stands for the Base64 of the HMAC-SHA256 of
      `text` under `key`, and `btoa` for the Base64 of a string. */
  function AuthQuery(apiKey: string, apiSecret: string, path: string, date: string, pageHost: string,
                     hmacBase64: (string, string) -> string, btoa: string -> string): string
  {
    var signature := hmacBase64(SigningString(pageHost, date, path), apiSecret);
    "?authorization=" + btoa(AuthorizationOrigin(apiKey, signature)) + "&date=" + date + "&host=" + pageHost
  }

  /** `generateWebsocketUrl`: `wss://` + host + path, then the query. */
  function TargetUrl(apiKey: string, apiSecret: string, url: Url, date: string, pageHost: string,
                     hmacBase64: (string, string) -> string, btoa: string -> string): string
  {
    "wss://" + url.host + url.pathname + AuthQuery(apiKey, apiSecret, url.pathname, date, pageHost, hmacBase64, btoa)
  }

  /** The URL names the target endpoint, and everything after the path is
      the same for any two targets with the same path: the target host takes
      no part in the signature. */
  lemma TargetUrlHostIndependent(apiKey: string, apiSecret: string, u1: Url, u2: Url, date: string,
                                 pageHost: string, hmacBase64: (string, string) -> string, btoa: string -> string)
    requires u1.pathname == u2.pathname
    ensures var t1 := TargetUrl(apiKey, apiSecret, u1, date, pageHost, hmacBase64, btoa);
      var t2 := TargetUrl(apiKey, apiSecret, u2, date, pageHost, hmacBase64, btoa);
      var n1 := |"wss://" + u1.host + u1.pathname|;
      var n2 := |"wss://" + u2.host + u2.pathname|;
      StartsAt(t1, 0, "wss://" + u1.host + u1.pathname) && StartsAt(t2, 0, "wss://" + u2.host + u2.pathname)
      && t1[n1..] == t2[n2..]
  {
    var q := AuthQuery(apiKey, apiSecret, u1.pathname, date, pageHost, hmacBase64, btoa);
    var p1, p2 := "wss://" + u1.host + u1.pathname, "wss://" + u2.host + u2.pathname;
    assert (p1 + q)[..|p1|] == p1 && (p1 + q)[|p1|..] == q;
    assert (p2 + q)[..|p2|] == p2 && (p2 + q)[|p2|..] == q;
  }

  /** The signed text splits into its three lines when the host and date
      hold no line break. */
  lemma SigningStringLines(pageHost: string, date: string, path: string)
    requires '\n' !in pageHost && '\n' !in date && '\n' !in path
    ensures var s := SigningString(pageHost, date, path);
      var i, j := 6 + |pageHost|, 6 + |pageHost| + 7 + |date|;
      s[i] == '\n' && s[j] == '\n'
      && s[..i] == "host: " + pageHost && s[i + 1..j] == "date: " + date && s[j + 1..] == "GET " + path + " HTTP/1.1"
      && forall k :: 0 <= k < |s| && k != i && k != j ==> s[k] != '\n'
  {
    var s := SigningString(pageHost, date, path);
    var l1, l2, l3 := "host: " + pageHost, "date: " + date, "GET " + path + " HTTP/1.1";
    assert s == l1 + "\n" + l2 + "\n" + l3;
    forall k | 0 <= k < |s| && k != |l1| && k != |l1| + 1 + |l2| ensures s[k] != '\n' {
      if k < 6 {
        assert s[k] == "host: "[k];
      } else if k < |l1| {
        assert s[k] == pageHost[k - 6];
      } else if k < |l1| + 1 + 6 {
        assert s[k] == "date: "[k - |l1| - 1];
      } else if k < |l1| + 1 + |l2| {
        assert s[k] == date[k - |l1| - 7];
      } else if k < |l1| + |l2| + 2 + 4 {
        assert s[k] == "GET "[k - |l1| - |l2| - 2];
      } else if k < |l1| + |l2| + 2 + 4 + |path| {
        assert s[k] == path[k - |l1| - |l2| - 6];
      } else {
        assert s[k] == " HTTP/1.1"[k - |l1| - |l2| - 6 - |path|];
      }
    }
  }

  // ---------------------------------------------------------------------------
  // The session: inbound frames and socket events
  // ---------------------------------------------------------------------------

  /** `status` of a `TTSRecorder`. */
  datatype Status = Init | Ttsing | EndPlay | ErrorTts

  /** A parsed response frame: `header.code`, `header.status`, and the content
      of `payload.choices.text[0]`. */
  datatype Response = Response(code: int, status: int, content: string)

  /** What a socket can deliver to the handlers once open. */
  datatype Event = Inbound(response: Response) | SocketError | SocketClose

  /** The observable state of a recorder: the reply so far, the status,
      whether `close()` was called, what the `onMessage` and `onFinish`
      callbacks received, and whether they are set. */
  datatype Session = Session(
    result: string, status: Status, closeRequested: bool,
    delivered: seq<string>, finished: seq<string>,
    hasOnMessage: bool, hasOnFinish: bool)

  /** One handler run: `onmessage` (through `onMessagePostprocess`),
      `onerror` or `onclose`. */
  function Step(s: Session, e: Event): Session
  {
    match e
    case Inbound(r) =>
      if r.code != 0 then s.(status := ErrorTts)
      else
        var closed := if r.status == 2 then s.(closeRequested := true, status := Init) else s;
        closed.(result := s.result + r.content,
                delivered := if s.hasOnMessage then s.delivered + [r.content] else s.delivered)
    case SocketError => s.(status := ErrorTts)
    case SocketClose => if s.hasOnFinish then s.(finished := s.finished + [s.result]) else s
  }

  /** The handlers run for each event in turn. */
  function Run(s: Session, events: seq<Event>): Session
  {
    if events == [] then s else Step(Run(s, events[..|events| - 1]), events[|events| - 1])
  }

  /** The contents of the successful frames among the events, in order. */
  function Fragments(events: seq<Event>): seq<string>
  {
    if events == [] then []
    else
      var last := events[|events| - 1];
      Fragments(events[..|events| - 1]) + (if IsChunk(last) then [last.response.content] else [])
  }

  predicate IsChunk(e: Event)
  {
    e.Inbound? && e.response.code == 0
  }

  function Concat(parts: seq<string>): string
  {
    if parts == [] then "" else Concat(parts[..|parts| - 1]) + parts[|parts| - 1]
  }

  /** An error frame sets `errorTTS`, and leaves the reply and the callbacks
      alone. A successful frame appends its content and hands exactly it to
      `onMessage`; the final one (`status == 2`) also closes the socket and
      returns the status to `init`. */
  lemma StepInbound(s: Session, r: Response)
    ensures var t := Step(s, Inbound(r));
      (r.code != 0 ==> t == s.(status := ErrorTts))
      && (r.code == 0 ==>
            t.result == s.result + r.content && StartsAt(t.result, 0, s.result)
            && t.delivered == (if s.hasOnMessage then s.delivered + [r.content] else s.delivered)
            && t.finished == s.finished)
      && (r.code == 0 && r.status == 2 ==> t.closeRequested && t.status == Init)
      && (r.code == 0 && r.status != 2 ==> t.closeRequested == s.closeRequested && t.status == s.status)
  {
    var t := Step(s, Inbound(r));
    if r.code == 0 {
      assert t.result[..|s.result|] == s.result;
    }
  }

  /** What one event adds to the reply and to the `onMessage` log. */
  lemma StepAppends(s: Session, e: Event)
    ensures var frag := if IsChunk(e) then [e.response.content] else [];
      Step(s, e).result == s.result + Concat(frag)
      && Step(s, e).delivered == (if s.hasOnMessage then s.delivered + frag else s.delivered)
      && Step(s, e).hasOnMessage == s.hasOnMessage && Step(s, e).hasOnFinish == s.hasOnFinish
  {
    var frag: seq<string> := if IsChunk(e) then [e.response.content] else [];
    if IsChunk(e) {
      assert frag[..0] == [];
      assert Concat(frag) == e.response.content;
    }
  }

  lemma {:induction false} ConcatAppend(a: seq<string>, b: seq<string>)
    ensures Concat(a + b) == Concat(a) + Concat(b)
    decreases |b|
  {
    if b == [] {
      assert a + b == a;
    } else {
      ConcatAppend(a, b[..|b| - 1]);
      assert (a + b)[..|a + b| - 1] == a + b[..|b| - 1];
    }
  }

  /** Whether the callbacks are set does not change during a run. */
  lemma {:induction false} RunKeepsCallbacks(s: Session, events: seq<Event>)
    ensures Run(s, events).hasOnMessage == s.hasOnMessage && Run(s, events).hasOnFinish == s.hasOnFinish
  {
    if events != [] {
      var init, e := events[..|events| - 1], events[|events| - 1];
      RunKeepsCallbacks(s, init);
      StepAppends(Run(s, init), e);
    }
  }

  /** Over any run, the reply is the old reply followed by the successful
      fragments in arrival order. */
  lemma {:induction false} RunResult(s: Session, events: seq<Event>)
    ensures Run(s, events).result == s.result + Concat(Fragments(events))
  {
    if events == [] {
      assert Concat([]) == "";
    } else {
      var init, e := events[..|events| - 1], events[|events| - 1];
      var frag: seq<string> := if IsChunk(e) then [e.response.content] else [];
      var before, after := Run(s, init), Run(s, events);
      var done, added := Concat(Fragments(init)), Concat(frag);
      assert after.result == (s.result + done) + added by {
        RunResult(s, init);
        assert after == Step(before, e);
        StepAppends(before, e);
      }
      assert Concat(Fragments(events)) == done + added by {
        assert Fragments(events) == Fragments(init) + frag;
        ConcatAppend(Fragments(init), frag);
      }
      JoinThree(s.result, done, added);
    }
  }

  /** Over any run, `onMessage` received exactly the successful fragments,
      in arrival order, when it is set, and nothing otherwise. */
  lemma {:induction false} RunDelivered(s: Session, events: seq<Event>)
    ensures Run(s, events).delivered == if s.hasOnMessage then s.delivered + Fragments(events) else s.delivered
  {
    if events != [] {
      var init, e := events[..|events| - 1], events[|events| - 1];
      RunDelivered(s, init);
      RunKeepsCallbacks(s, init);
      var before := Run(s, init);
      assert Run(s, events) == Step(before, e);
      StepAppends(before, e);
      var frag: seq<string> := if IsChunk(e) then [e.response.content] else [];
      assert Fragments(events) == Fragments(init) + frag;
    }
  }

  /** `onFinish` receives the reply accumulated when the socket closes. */
  lemma CloseFinishes(s: Session)
    requires s.hasOnFinish
    ensures Step(s, SocketClose).finished == s.finished + [s.result]
    ensures Step(s, SocketClose).result == s.result && Step(s, SocketClose).status == s.status
  {
  }

  /** `errorTTS` is not final: a later final frame brings the status back to
      `init`. */
  lemma ErrorThenFinal(s: Session, content: string)
    ensures Run(s, [SocketError, Inbound(Response(0, 2, content))]).status == Init
  {
    var events := [SocketError, Inbound(Response(0, 2, content))];
    assert events[..1] == [SocketError];
    assert events[..1][..0] == [];
  }

  // ---------------------------------------------------------------------------
  // TTSRecorder
  // ---------------------------------------------------------------------------

  /** What `connectWebSocket` hands to the socket's `onopen` handler. */
  datatype Connection = Connection(
    conversations: seq<ChatMessage>, wssUrl: Url, apiDomain: Option<string>,
    chatParams: Option<ChatParams>, chatId: Option<string>)

  class TTSRecorder {
    const appId: string
    const apiSecret: string
    const apiKey: string
    const userId: string
    var result: string
    var status: Status
    /** The URL of the current socket, and whether `close()` was called on it. */
    var socketUrl: string
    var closeRequested: bool
    /** The arguments of the last `connectWebSocket`, kept by its handlers. */
    var connection: Option<Connection>
    /** Every frame sent through `Socket.send`. */
    var sent: seq<Request>
    /** Whether `onMessage` and `onFinish` are set, and what they received. */
    var hasOnMessage: bool
    var hasOnFinish: bool
    var delivered: seq<string>
    var finished: seq<string>

    function State(): Session
      reads this
    {
      Session(result, status, closeRequested, delivered, finished, hasOnMessage, hasOnFinish)
    }

    /** The user id is the one given unless it is missing or empty; then the
        fresh id (`nanoid()`). */
    constructor(appId: string, apiSecret: string, apiKey: string, userId: Option<string>, freshId: string)
      ensures this.appId == appId && this.apiSecret == apiSecret && this.apiKey == apiKey
      ensures this.userId == if userId.Some? && userId.value != "" then userId.value else freshId
      ensures State() == Session("", Init, false, [], [], false, false)
      ensures socketUrl == "wss://baidu.com" && connection.None? && sent == []
    {
      this.appId := appId;
      this.apiSecret := apiSecret;
      this.apiKey := apiKey;
      this.userId := if userId.Some? && userId.value != "" then userId.value else freshId;
      result := "";
      status := Init;
      socketUrl := "wss://baidu.com";
      closeRequested := false;
      connection := None;
      sent := [];
      hasOnMessage := false;
      hasOnFinish := false;
      delivered := [];
      finished := [];
    }

    /** The caller assigns or clears `onMessage` and `onFinish`. */
    method SetCallbacks(onMessage: bool, onFinish: bool)
      modifies this
      ensures State() == old(State()).(hasOnMessage := onMessage, hasOnFinish := onFinish)
      ensures socketUrl == old(socketUrl) && connection == old(connection) && sent == old(sent)
    {
      hasOnMessage := onMessage;
      hasOnFinish := onFinish;
    }

    /** `connectWebSocket`: the status becomes `ttsing`, and a new socket is
        opened on the signed URL with handlers that remember the arguments.
        The date, the page host and the two encoders are inputs. */
    method ConnectWebSocket(conversations: seq<ChatMessage>, wssUrl: Url, apiDomain: Option<string>,
                            chatParams: Option<ChatParams>, chatId: Option<string>,
                            date: string, pageHost: string,
                            hmacBase64: (string, string) -> string, btoa: string -> string)
      modifies this
      ensures status == Ttsing && closeRequested == false
      ensures socketUrl == TargetUrl(apiKey, apiSecret, wssUrl, date, pageHost, hmacBase64, btoa)
      ensures connection == Some(Connection(conversations, wssUrl, apiDomain, chatParams, chatId))
      ensures result == old(result) && delivered == old(delivered) && finished == old(finished)
      ensures hasOnMessage == old(hasOnMessage) && hasOnFinish == old(hasOnFinish) && sent == old(sent)
    {
      var url := TargetUrl(apiKey, apiSecret, wssUrl, date, pageHost, hmacBase64, btoa);
      status := Ttsing;
      socketUrl := url;
      closeRequested := false;
      connection := Some(Connection(conversations, wssUrl, apiDomain, chatParams, chatId));
    }

    /** `onopen`: send the request for the remembered arguments, with the
        explicit domain taking priority over the URL's. */
    method OnOpen(freshChatId: string)
      requires connection.Some?
      modifies this
      ensures connection == old(connection)
      ensures var c := connection.value;
        var r := BuildRequest(appId, userId, SelectDomain(c.apiDomain, c.wssUrl), c.chatParams,
                              c.chatId, freshChatId, c.conversations);
        sent == old(sent) + (if r.Success? then [r.value] else [])
      ensures State() == old(State()) && socketUrl == old(socketUrl)
    {
      var c := connection.value;
      WebSocketSend(c.conversations, SelectDomain(c.apiDomain, c.wssUrl), c.chatParams, c.chatId, freshChatId);
    }

    /** `webSocketSend`: cap the parameters, normalise the conversation
        (which may throw, and then nothing is sent), strip system messages
        unless the domain is `generalv3.5`, and send the frame. */
    method WebSocketSend(conversations: seq<ChatMessage>, apiDomain: string, chatParams: Option<ChatParams>,
                         chatId: Option<string>, freshChatId: string)
      modifies this
      ensures var r := BuildRequest(appId, userId, apiDomain, chatParams, chatId, freshChatId, conversations);
        sent == old(sent) + (if r.Success? then [r.value] else [])
      ensures State() == old(State()) && socketUrl == old(socketUrl) && connection == old(connection)
    {
      var params := CappedParams(apiDomain, chatParams);
      var generated := GenerateMessages(conversations);
      if generated.Failure? {
        return;
      }
      var text := generated.value;
      if apiDomain != "generalv3.5" {
        text := StripSystemMessages(text);
      }
      var id := if chatId.Some? && chatId.value != "" then chatId.value else freshChatId;
      sent := sent + [Request(appId, userId, apiDomain, params, id, text)];
    }

    /** `onmessage`, through `onMessagePostprocess`. */
    method OnMessagePostprocess(response: Response)
      modifies this
      ensures State() == Step(old(State()), Inbound(response))
      ensures socketUrl == old(socketUrl) && connection == old(connection) && sent == old(sent)
    {
      if response.code != 0 {
        status := ErrorTts;
        return;
      }
      if response.code == 0 && response.status == 2 {
        closeRequested := true;
        status := Init;
      }
      var responseMessages := response.content;
      result := result + responseMessages;
      if hasOnMessage {
        delivered := delivered + [responseMessages];
      }
    }

    /** `onerror`. */
    method OnError()
      modifies this
      ensures State() == Step(old(State()), SocketError)
      ensures socketUrl == old(socketUrl) && connection == old(connection) && sent == old(sent)
    {
      status := ErrorTts;
    }

    /** `onclose`. */
    method OnClose()
      modifies this
      ensures State() == Step(old(State()), SocketClose)
      ensures socketUrl == old(socketUrl) && connection == old(connection) && sent == old(sent)
    {
      if hasOnFinish {
        finished := finished + [result];
      }
    }
  }

  // ---------------------------------------------------------------------------
  // Sessions driven from the outside
  // ---------------------------------------------------------------------------

  /** A recorder with both callbacks set, connected to the default endpoint,
      after `onopen` sent the request for a conversation ending with the
      user's message. */
  method OpenedRecorder(hmacBase64: (string, string) -> string, btoa: string -> string)
    returns (recorder: TTSRecorder)
    ensures fresh(recorder)
    ensures recorder.State() == Session("", Ttsing, false, [], [], true, true) && |recorder.sent| == 1
  {
    recorder := new TTSRecorder("app", "secret", "key", None, "uid");
    recorder.SetCallbacks(true, true);
    var conversation := [ChatMessage(System, "be brief"), ChatMessage(User, "hi")];
    recorder.ConnectWebSocket(conversation, DefaultWssUrl, None, None, None, "date", "page", hmacBase64, btoa);
    recorder.OnOpen("chat");
  }

  /** A streamed reply in two frames, the second one final: the fragments
      reach `onMessage` one by one and `onFinish` gets the whole reply. */
  method StreamedReply(hmacBase64: (string, string) -> string, btoa: string -> string)
    returns (delivered: seq<string>, finished: seq<string>, status: Status, sent: nat)
    ensures delivered == ["Hel", "lo"] && finished == ["Hello"] && status == Init && sent == 1
  {
    var recorder := OpenedRecorder(hmacBase64, btoa);
    recorder.OnMessagePostprocess(Response(0, 1, "Hel"));
    assert recorder.result == "Hel" && recorder.delivered == ["Hel"];
    recorder.OnMessagePostprocess(Response(0, 2, "lo"));
    assert recorder.result == "Hel" + "lo" && recorder.delivered == ["Hel", "lo"];
    assert "Hel" + "lo" == "Hello";
    recorder.OnClose();
    return recorder.delivered, recorder.finished, recorder.status, |recorder.sent|;
  }

  /** A recorder with only `onFinish` set, after `onopen` for a conversation
      that ends with the assistant's message: nothing was sent. */
  method RejectingRecorder(hmacBase64: (string, string) -> string, btoa: string -> string)
    returns (recorder: TTSRecorder)
    ensures fresh(recorder)
    ensures recorder.State() == Session("", Ttsing, false, [], [], false, true) && recorder.sent == []
  {
    recorder := new TTSRecorder("app", "secret", "key", Some("me"), "uid");
    recorder.SetCallbacks(false, true);
    var conversation := [ChatMessage(User, "hi"), ChatMessage(Assistant, "hello")];
    recorder.ConnectWebSocket(conversation, Url("spark-api.xf-yun.com", "/v3.1/chat"), None, None, None,
                              "date", "page", hmacBase64, btoa);
    recorder.OnOpen("chat");
  }

  /** A conversation that does not end with the user's message sends
      nothing; an error frame then leaves an empty reply. */
  method RejectedConversation(hmacBase64: (string, string) -> string, btoa: string -> string)
    returns (sent: nat, status: Status, finished: seq<string>)
    ensures sent == 0 && status == ErrorTts && finished == [""]
  {
    var recorder := RejectingRecorder(hmacBase64, btoa);
    recorder.OnMessagePostprocess(Response(10013, 0, "ignored"));
    recorder.OnClose();
    return |recorder.sent|, recorder.status, recorder.finished;
  }

  /** On the v1.1 endpoint the request goes to `general`, with the token cap
      applied and the system prompt stripped. */
  method GeneralRequest(hmacBase64: (string, string) -> string, btoa: string -> string)
    returns (request: Request)
    ensures request.domain == "general" && request.params.maxTokens == Some(4096)
    ensures request.text == [ChatMessage(User, "hi")] && request.chatId == "fresh" && request.uid == "uid"
  {
    var recorder := new TTSRecorder("app", "secret", "key", Some(""), "uid");
    var conversation := [ChatMessage(System, "be brief"), ChatMessage(User, "hi")];
    recorder.ConnectWebSocket(conversation, Url("spark-api.xf-yun.com", "/v1.1/chat"), None,
                              Some(ChatParams(None, Some(8192), None)), Some(""), "date", "page", hmacBase64, btoa);
    recorder.OnOpen("fresh");
    assert conversation[1..] == [ChatMessage(User, "hi")];
    return recorder.sent[0];
  }
}
