/** relay.go's error classification over arbitrary trees of wrapped and joined errors. */
module RelayErrors {
  import opened Options
  import opened Text

  datatype Err =
    | Plain(text: string)
    | LeaseRefresh                                              // errLeaseRefresh
    | Eof
    | UnexpectedEof
    | Canceled
    | DeadlineExceeded
    | Api(status: int, code: string, retryAfter: int)           // *APIError
    | Network(causes: seq<Err>)                                 // any net.Error, with what it unwraps to
    | Certificate(causes: seq<Err>)                             // the four certificate validation errors
    | TerminalError(cause: Err)                                 // *terminalRelayError
    | Malformed(cause: Err)                                     // *malformedRelayResponseError
    | ReverseUpgrade(capability: string, generation: nat, cause: Err)
    | TenantSigner(generation: nat, cause: Err)
    | Wrap(text: string, cause: Err)                            // fmt.Errorf with one %w
    | Join(causes: seq<Err>)                                    // errors.Join, or several %w

  /** What errors.Is and errors.As are asked for. */
  datatype Kind = IsTerminal | IsRefresh | IsMalformed | IsCertificate | IsApi | IsBenign | IsCanceled | IsNetwork

  predicate Matches(e: Err, k: Kind) {
    match k
    case IsTerminal => e.TerminalError?
    case IsRefresh => e.LeaseRefresh?
    case IsMalformed => e.Malformed?
    case IsCertificate => e.Certificate?
    case IsApi => e.Api?
    case IsBenign => e.Eof? || e.UnexpectedEof? || e.Canceled? || e.DeadlineExceeded?
    case IsCanceled => e.Canceled?
    case IsNetwork => e.Network?
  }

  /** errors.As (and errors.Is): the error itself, then what it unwraps to, each branch in order. */
  function First(e: Err, k: Kind): Option<Err> {
    if Matches(e, k) then Some(e)
    else
      match e
      case Network(causes) => FirstIn(causes, k)
      case Certificate(causes) => FirstIn(causes, k)
      case Join(causes) => FirstIn(causes, k)
      case TerminalError(cause) => First(cause, k)
      case Malformed(cause) => First(cause, k)
      case ReverseUpgrade(_, _, cause) => First(cause, k)
      case TenantSigner(_, cause) => First(cause, k)
      case Wrap(_, cause) => First(cause, k)
      case _ => None
  }

  function FirstIn(es: seq<Err>, k: Kind): Option<Err> {
    if es == [] then None
    else if First(es[0], k).Some? then First(es[0], k)
    else FirstIn(es[1..], k)
  }

  predicate Has(e: Err, k: Kind) { First(e, k).Some? }

  const TERMINAL_CODES: set<string> :=
    {"feature_unavailable", "hostname_conflict", "http11_only", "tcp_port_disabled", "transport_mismatch", "udp_disabled"}

  predicate IsTerminalCode(code: string) {
    ToLower(TrimSpace(code)) in TERMINAL_CODES
  }

  predicate IsRateLimited(status: int, code: string) {
    status == 429 || EqualFold(TrimSpace(code), "rate_limited")
  }

  predicate IsLostCode(code: string) {
    ToLower(TrimSpace(code)) in {"lease_not_found", "unauthorized"}
  }

  predicate IsLostLease(e: Err) {
    var api := First(e, IsApi);
    api.Some? && api.value.Api? && IsLostCode(api.value.code)
  }

  function TerminalRelay(e: Err): Err {
    if Has(e, IsTerminal) then e else TerminalError(e)
  }

  function UnwrapTerminal(e: Err): Err {
    var terminal := First(e, IsTerminal);
    if terminal.Some? && terminal.value.TerminalError? then terminal.value.cause else e
  }

  /** classifyRelayError on a non-nil error. */
  function Classify(e: Err, allowRefresh: bool): Err {
    if Has(e, IsTerminal) || Has(e, IsRefresh) then e
    else if allowRefresh && IsLostLease(e) then LeaseRefresh
    else if Has(e, IsMalformed) then TerminalRelay(e)
    else if Has(e, IsCertificate) then TerminalRelay(e)
    else if Has(e, IsApi) then
      var api := First(e, IsApi).value;
      if !api.Api? then TerminalRelay(e)
      else if IsTerminalCode(api.code) then TerminalRelay(e)
      else if IsRateLimited(api.status, api.code) || api.status >= 500 then e
      else TerminalRelay(e)
    else if Has(e, IsBenign) then e
    else if Has(e, IsNetwork) then e
    else TerminalRelay(e)
  }

  datatype Class = NoError | Terminal | Refresh | Retryable

  /** What the supervisor does with an error: terminal is tested before refresh. */
  function ClassOf(e: Option<Err>): Class {
    if e.None? then NoError
    else if Has(e.value, IsTerminal) then Terminal
    else if Has(e.value, IsRefresh) then Refresh
    else Retryable
  }

  function ClassAfter(e: Err, allowRefresh: bool): Class {
    ClassOf(Some(Classify(e, allowRefresh)))
  }

  // ----- an independent reference for the search: the tree in preorder

  function Preorder(e: Err): seq<Err> {
    [e] +
    match e
    case Network(causes) => PreorderAll(causes)
    case Certificate(causes) => PreorderAll(causes)
    case Join(causes) => PreorderAll(causes)
    case TerminalError(cause) => Preorder(cause)
    case Malformed(cause) => Preorder(cause)
    case ReverseUpgrade(_, _, cause) => Preorder(cause)
    case TenantSigner(_, cause) => Preorder(cause)
    case Wrap(_, cause) => Preorder(cause)
    case _ => []
  }

  function PreorderAll(es: seq<Err>): seq<Err> {
    if es == [] then [] else Preorder(es[0]) + PreorderAll(es[1..])
  }

  /** found is the earliest element of s of kind k. */
  ghost predicate Earliest(s: seq<Err>, k: Kind, found: Option<Err>) {
    match found
    case None => forall i | 0 <= i < |s| :: !Matches(s[i], k)
    case Some(e) => exists i | 0 <= i < |s| :: s[i] == e && Matches(e, k) && forall j | 0 <= j < i :: !Matches(s[j], k)
  }

  lemma EarliestConcat(s: seq<Err>, t: seq<Err>, k: Kind, found: Option<Err>)
    requires if Earliest(s, k, None) then Earliest(t, k, found) else Earliest(s, k, found)
    ensures Earliest(s + t, k, found)
  {
    if Earliest(s, k, None) {
      if found.Some? {
        var i :| 0 <= i < |t| && t[i] == found.value && Matches(found.value, k) && forall j | 0 <= j < i :: !Matches(t[j], k);
        assert (s + t)[|s| + i] == found.value;
      }
    } else if found.Some? {
      var i :| 0 <= i < |s| && s[i] == found.value && Matches(found.value, k) && forall j | 0 <= j < i :: !Matches(s[j], k);
      assert (s + t)[i] == found.value;
    }
  }

  lemma EarliestHead(e: Err, t: seq<Err>, k: Kind, found: Option<Err>)
    requires if Matches(e, k) then found == Some(e) else Earliest(t, k, found)
    ensures Earliest([e] + t, k, found)
  {
    assert [e][0] == e;
    if Matches(e, k) {
      assert Earliest([e], k, found);
    }
    EarliestConcat([e], t, k, found);
  }

  /** errors.As finds the earliest matching error in preorder, and nothing exactly when there is none. */
  lemma {:induction false} FirstIsEarliest(e: Err, k: Kind)
    ensures Earliest(Preorder(e), k, First(e, k))
  {
    var t := Preorder(e)[1..];
    if !Matches(e, k) {
      match e
      case Network(causes) => FirstInIsEarliest(causes, k);
      case Certificate(causes) => FirstInIsEarliest(causes, k);
      case Join(causes) => FirstInIsEarliest(causes, k);
      case TerminalError(cause) => FirstIsEarliest(cause, k);
      case Malformed(cause) => FirstIsEarliest(cause, k);
      case ReverseUpgrade(_, _, cause) => FirstIsEarliest(cause, k);
      case TenantSigner(_, cause) => FirstIsEarliest(cause, k);
      case Wrap(_, cause) => FirstIsEarliest(cause, k);
      case _ =>
    }
    EarliestHead(e, t, k, First(e, k));
    assert Preorder(e) == [e] + t;
  }

  lemma {:induction false} FirstInIsEarliest(es: seq<Err>, k: Kind)
    ensures Earliest(PreorderAll(es), k, FirstIn(es, k))
  {
    if es != [] {
      FirstIsEarliest(es[0], k);
      FirstInIsEarliest(es[1..], k);
      EarliestConcat(Preorder(es[0]), PreorderAll(es[1..]), k, FirstIn(es, k));
    }
  }

  // ----- the class of every tree, read off its nodes

  ghost function Nodes(e: Err): set<Err> { set n | n in Preorder(e) }

  /** The earliest API error of the tree. */
  ghost predicate FirstApi(e: Err, api: Err) {
    exists i | 0 <= i < |Preorder(e)| :: Preorder(e)[i] == api && api.Api? && forall j | 0 <= j < i :: !Preorder(e)[j].Api?
  }

  predicate IsTransient(e: Err) { e.Eof? || e.UnexpectedEof? || e.Canceled? || e.DeadlineExceeded? || e.Network? }

  /** Searching for a kind finds something exactly when some node is of that kind. */
  lemma HasMeansNode(e: Err, k: Kind)
    ensures Has(e, k) <==> exists n | n in Nodes(e) :: Matches(n, k)
  {
    FirstIsEarliest(e, k);
    if n :| n in Nodes(e) && Matches(n, k) {
      var i :| 0 <= i < |Preorder(e)| && Preorder(e)[i] == n;
    }
    if Has(e, k) {
      var i :| 0 <= i < |Preorder(e)| && Preorder(e)[i] == First(e, k).value;
      assert First(e, k).value in Nodes(e);
    }
  }

  lemma NodesOfEachKind(e: Err)
    ensures Has(e, IsTerminal) <==> exists n | n in Nodes(e) :: n.TerminalError?
    ensures Has(e, IsRefresh) <==> exists n | n in Nodes(e) :: n.LeaseRefresh?
    ensures Has(e, IsMalformed) || Has(e, IsCertificate) <==> exists n | n in Nodes(e) :: n.Malformed? || n.Certificate?
    ensures Has(e, IsApi) <==> exists n | n in Nodes(e) :: n.Api?
    ensures Has(e, IsBenign) || Has(e, IsNetwork) <==> exists n | n in Nodes(e) :: IsTransient(n)
  {
    HasMeansNode(e, IsTerminal);
    HasMeansNode(e, IsRefresh);
    HasMeansNode(e, IsMalformed);
    HasMeansNode(e, IsCertificate);
    HasMeansNode(e, IsApi);
    HasMeansNode(e, IsBenign);
    HasMeansNode(e, IsNetwork);
    hide Has, Nodes;
  }

  lemma FirstApiIsFound(e: Err, api: Err)
    ensures FirstApi(e, api) <==> First(e, IsApi) == Some(api)
  {
    FirstIsEarliest(e, IsApi);
    if FirstApi(e, api) {
      var i :| 0 <= i < |Preorder(e)| && Preorder(e)[i] == api && forall j | 0 <= j < i :: !Preorder(e)[j].Api?;
      assert Matches(Preorder(e)[i], IsApi);
    }
  }

  /** Without a terminal failure an errLeaseRefresh anywhere in the tree makes it a refresh, which is kept as it is. */
  lemma RefreshIsKept(e: Err, allowRefresh: bool)
    requires (forall n | n in Nodes(e) :: !n.TerminalError?) && exists n | n in Nodes(e) :: n.LeaseRefresh?
    ensures Classify(e, allowRefresh) == e && ClassAfter(e, allowRefresh) == Refresh
  {
    NodesOfEachKind(e);
    hide Has, Nodes;
  }

  /** Nobody has judged the failure yet. */
  ghost predicate Unjudged(e: Err) { forall n | n in Nodes(e) :: !n.TerminalError? && !n.LeaseRefresh? }

  ghost predicate LosesLease(e: Err, allowRefresh: bool) {
    allowRefresh && exists api :: FirstApi(e, api) && api.Api? && IsLostCode(api.code)
  }

  /** A malformed reply or a bad certificate. */
  ghost predicate Broken(e: Err) { exists n | n in Nodes(e) :: n.Malformed? || n.Certificate? }

  /** An API error that is worth a retry: throttled or a server failure, unless its code says that it is final. */
  predicate RetryableApi(api: Err) {
    api.Api? && !IsTerminalCode(api.code) && (IsRateLimited(api.status, api.code) || api.status >= 500)
  }

  /** Worth a retry: the first API error decides, and without one whether any cause is transient. */
  ghost predicate WorthRetry(e: Err) {
    && !Broken(e)
    && if exists n | n in Nodes(e) :: n.Api? then exists api :: FirstApi(e, api) && RetryableApi(api)
       else exists n | n in Nodes(e) :: IsTransient(n)
  }

  /** What classification does to every failure that nobody has judged yet: a lost lease becomes a refresh where that is
      allowed, what is worth a retry is returned as it is, and everything else is wrapped as terminal. */
  lemma ClassOfAnyTree(e: Err, allowRefresh: bool)
    requires Unjudged(e)
    ensures Classify(e, allowRefresh)
         == if LosesLease(e, allowRefresh) then LeaseRefresh else if WorthRetry(e) then e else TerminalError(e)
    ensures ClassAfter(e, allowRefresh)
         == if LosesLease(e, allowRefresh) then Refresh else if WorthRetry(e) then Retryable else Terminal
  {
    NodesOfEachKind(e);
    forall api ensures FirstApi(e, api) <==> First(e, IsApi) == Some(api) {
      FirstApiIsFound(e, api);
    }
    FirstKeepsKind(e, IsApi);
    assert First(TerminalError(e), IsTerminal) == Some(TerminalError(e));
    assert First(LeaseRefresh, IsTerminal) == None && First(LeaseRefresh, IsRefresh) == Some(LeaseRefresh);
    hide First, Nodes, FirstApi, IsLostCode, IsTerminalCode, IsRateLimited;
  }

  lemma FirstKeepsKind(e: Err, k: Kind)
    ensures Has(e, k) ==> Matches(First(e, k).value, k)
  {
    FirstIsEarliest(e, k);
  }

  // ----- transparent wrapping

  /** The wrappers that carry no class of their own. */
  datatype Wrapper =
    | Message(text: string)
    | Upgrade(capability: string, generation: nat)
    | Signer(generation: nat)
    | Single

  function Enclose(w: Wrapper, e: Err): Err {
    match w
    case Message(text) => Wrap(text, e)
    case Upgrade(capability, generation) => ReverseUpgrade(capability, generation, e)
    case Signer(generation) => TenantSigner(generation, e)
    case Single => Join([e])
  }

  function EncloseAll(ws: seq<Wrapper>, e: Err): Err {
    if ws == [] then e else Enclose(ws[0], EncloseAll(ws[1..], e))
  }

  lemma {:induction false} EnclosedFirst(ws: seq<Wrapper>, e: Err, k: Kind)
    ensures First(EncloseAll(ws, e), k) == First(e, k)
  {
    if ws != [] {
      EnclosedFirst(ws[1..], e, k);
      var inner := EncloseAll(ws[1..], e);
      assert FirstIn([inner][1..], k) == None;
      assert FirstIn([inner], k) == First(inner, k);
    }
  }

  // ----- main results

  /** A terminal error anywhere in the tree decides: classification returns the error unchanged, whatever else is
      wrapped or joined with it, so it is never downgraded. */
  lemma TerminalIsNeverDowngraded(e: Err, allowRefresh: bool)
    requires exists i | 0 <= i < |Preorder(e)| :: Preorder(e)[i].TerminalError?
    ensures Classify(e, allowRefresh) == e && ClassOf(Some(Classify(e, allowRefresh))) == Terminal
  {
    FirstIsEarliest(e, IsTerminal);
  }

  lemma ClassificationIsIdempotent(e: Err, allowRefresh: bool)
    ensures Classify(Classify(e, allowRefresh), allowRefresh) == Classify(e, allowRefresh)
  {
    assert Has(TerminalRelay(e), IsTerminal);
  }

  /** Any depth of transparent wrapping leaves the class alone. */
  lemma WrappingKeepsTheClass(ws: seq<Wrapper>, e: Err, allowRefresh: bool)
    ensures ClassAfter(EncloseAll(ws, e), allowRefresh) == ClassAfter(e, allowRefresh)
    ensures ClassOf(Some(EncloseAll(ws, e))) == ClassOf(Some(e))
  {
    EnclosedFirst(ws, e, IsTerminal);
    EnclosedFirst(ws, e, IsRefresh);
    EnclosedFirst(ws, e, IsMalformed);
    EnclosedFirst(ws, e, IsCertificate);
    EnclosedFirst(ws, e, IsApi);
    EnclosedFirst(ws, e, IsBenign);
    EnclosedFirst(ws, e, IsNetwork);
    assert forall x :: Has(TerminalRelay(x), IsTerminal);
  }

  /** run reports the cause of the earliest terminal error in the tree, which for a freshly made one is what was
      made terminal. */
  lemma UnwrapGivesTheCause(e: Err)
    ensures !Has(e, IsTerminal) ==> UnwrapTerminal(TerminalRelay(e)) == e
    ensures Has(e, IsTerminal) ==> TerminalRelay(e) == e && Earliest(Preorder(e), IsTerminal, Some(TerminalError(UnwrapTerminal(e))))
  {
    FirstIsEarliest(e, IsTerminal);
  }

  /** The retry contract for an API error under any transparent wrapping. The code decides before the status does;
      a lost lease counts as one only where a refresh is allowed. */
  lemma ApiContract(ws: seq<Wrapper>, status: int, code: string, retryAfter: int, allowRefresh: bool)
    ensures ClassAfter(EncloseAll(ws, Api(status, code, retryAfter)), allowRefresh)
         == if allowRefresh && IsLostCode(code) then Refresh
            else if IsTerminalCode(code) then Terminal
            else if IsRateLimited(status, code) || status >= 500 then Retryable
            else Terminal
  {
    var e := Api(status, code, retryAfter);
    WrappingKeepsTheClass(ws, e, allowRefresh);
    ApiKinds(e);
    hide IsLostCode, IsTerminalCode, IsRateLimited, First;
  }

  lemma ApiKinds(e: Err)
    requires e.Api?
    ensures First(e, IsApi) == Some(e)
    ensures forall k | k != IsApi :: First(e, k) == None
    ensures First(TerminalError(e), IsTerminal) == Some(TerminalError(e))
    ensures First(LeaseRefresh, IsTerminal) == None && First(LeaseRefresh, IsRefresh) == Some(LeaseRefresh)
  {
  }

  predicate IsAsciiText(s: string) { forall i | 0 <= i < |s| :: s[i] < '\U{80}' }

  lemma AsciiHasOneLowerCase(s: string)
    requires IsAsciiText(s)
    ensures ToLower(s) == AsciiLower(s)
  {
  }

  /** The codes that reject a lease or a configuration for good. */
  predicate IsFinalWord(word: string) {
    || word == "feature_unavailable" || word == "hostname_conflict" || word == "http11_only"
    || word == "tcp_port_disabled" || word == "transport_mismatch" || word == "udp_disabled"
  }

  predicate IsLostWord(word: string) { word == "lease_not_found" || word == "unauthorized" }

  /** An ASCII code decides in any letter case and between any blanks. The six listed ones are final at any status, the
      two lost-lease ones end a lease where a refresh is allowed, a throttle is retried, and any other code leaves the
      decision to the status. */
  lemma CodeDecides(status: int, left: string, word: string, right: string, retryAfter: int, allowRefresh: bool)
    requires AllSpaces(left) && AllSpaces(right) && Trimmed(word) && IsAsciiText(word)
    ensures ClassAfter(Api(status, left + word + right, retryAfter), allowRefresh)
         == if allowRefresh && IsLostWord(AsciiLower(word)) then Refresh
            else if IsFinalWord(AsciiLower(word)) then Terminal
            else if status == 429 || status >= 500 || AsciiLower(word) == "rate_limited" then Retryable
            else Terminal
  {
    var code := left + word + right;
    TrimBlanks(left, word, right);
    AsciiHasOneLowerCase(word);
    WordsAreTheCodes(AsciiLower(word));
    ThrottleIsLower();
    ApiContract([], status, code, retryAfter, allowRefresh);
    assert EncloseAll([], Api(status, code, retryAfter)) == Api(status, code, retryAfter);
    hide TrimSpace, AsciiLower, ToLower, ClassAfter, IsFinalWord, IsLostWord;
  }

  lemma WordsAreTheCodes(word: string)
    ensures word in TERMINAL_CODES <==> IsFinalWord(word)
    ensures word in {"lease_not_found", "unauthorized"} <==> IsLostWord(word)
  {
  }

  lemma ThrottleIsLower()
    ensures AsciiLower("rate_limited") == "rate_limited"
  {
    var word := "rate_limited";
    assert forall i | 0 <= i < |word| :: AsciiLowerChar(word[i]) == word[i];
  }

  /** Where the code and its documentation part: during registration, which does not allow a refresh, a lost-lease
      reply below 500 that is not a throttle is terminal rather than retried. */
  lemma LostLeaseWhileRegisteringIsTerminal(status: int, code: string, retryAfter: int)
    requires IsLostCode(code)
    ensures ClassAfter(Api(status, code, retryAfter), false) == Terminal <==> status != 429 && status < 500
  {
    ApiContract([], status, code, retryAfter, false);
    assert EncloseAll([], Api(status, code, retryAfter)) == Api(status, code, retryAfter);
    LostIsNotTerminal(code);
    LostIsNotThrottle(code);
  }

  lemma LostIsNotTerminal(code: string)
    requires IsLostCode(code)
    ensures !IsTerminalCode(code)
  {
  }

  lemma LostIsNotThrottle(code: string)
    requires IsLostCode(code)
    ensures !EqualFold(TrimSpace(code), "rate_limited")
  {
    hide TrimSpace, ToLower, AsciiLower;
    var s, lost := TrimSpace(code), "unauthorized";
    ThrottleIsLower();
    if |s| == 12 {
      assert ToLower(s) == lost && LowerChar(s[0]) == lost[0] == 'u';
      assert AsciiLower(s)[0] != 'r' == "rate_limited"[0];
    }
  }
}
