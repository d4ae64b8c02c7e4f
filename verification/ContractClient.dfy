/**
 How an answer from the chain becomes a relay result, and how an AlreadySponsored revert is
 recognised in the failure text.
 */
module ContractClient {
  import opened Wrappers
  import opened Tables

  /** What `extractErrorData` and the ABI decoder find in a thrown error. */
  datatype RevertData = NoData | Undecodable | Decoded(errorName: string, args: seq<string>)

  datatype ThrownError = NotAnError(text: string) | AnError(message: string, data: RevertData)

  const ALREADY_SPONSORED := "AlreadySponsored"
  const NOT_INITIALIZED := "Relay executor not initialized " + "\U{2014} call initializeRelayExecutor() first"
  const NO_CLIENT := "Contract client not initialized " + "\U{2014} call initializeContractClient() first"

  function LowerChar(c: char): char {
    if 'A' <= c <= 'Z' then c - 'A' + 'a' else c
  }

  function ToLowerCase(s: string): (r: string)
    ensures |r| == |s|
  {
    seq(|s|, i requires 0 <= i < |s| => LowerChar(s[i]))
  }

  predicate StartsWith(s: string, prefix: string) {
    |prefix| <= |s| && s[..|prefix|] == prefix
  }

  predicate Includes(s: string, part: string) {
    exists i | 0 <= i <= |s| :: StartsWith(s[i..], part)
  }

  predicate IsConnectionError(msg: string) {
    Includes(msg, "econnrefused") || Includes(msg, "etimedout") || Includes(msg, "connect")
  }

  predicate IsRateLimited(msg: string) {
    Includes(msg, "429") || Includes(msg, "rate limit")
  }

  predicate IsTimeout(msg: string) {
    Includes(msg, "timed out") || Includes(msg, "timeout")
  }

  /** Some message pattern matches, so revert data is never looked at. */
  predicate MatchesNetworkPattern(message: string) {
    var msg := ToLowerCase(message);
    IsConnectionError(msg) || IsRateLimited(msg) || Includes(msg, "nonce") || Includes(msg, "gas") || IsTimeout(msg)
  }

  function FormatDecodedError(errorName: string, args: seq<string>): string {
    if errorName == "Unauthorized" then "Unauthorized: caller is not the operator"
    else if errorName == "ExceedsLimit" then
      if |args| >= 2 then "ExceedsLimit: requested " + args[0] + ", limit " + args[1]
      else "ExceedsLimit: amount exceeds per-transaction limit"
    else if errorName == "InsufficientBalance" then
      if |args| >= 2 then "InsufficientBalance: requested " + args[0] + ", available " + args[1]
      else "InsufficientBalance: vault has insufficient funds"
    else if errorName == ALREADY_SPONSORED then
      if |args| >= 1 then "AlreadySponsored: " + args[0]
      else "AlreadySponsored: recipient already sponsored"
    else if errorName == "InvalidRecipient" then "InvalidRecipient: recipient address is invalid"
    else if errorName == "InvalidAmount" then "InvalidAmount: sponsorship amount is invalid"
    else "Contract error: " + errorName
  }

  function HandleExecutionError(e: ThrownError): string {
    match e
    case NotAnError(text) => text
    case AnError(message, data) =>
      var msg := ToLowerCase(message);
      if IsConnectionError(msg) then "Connection error: " + message
      else if IsRateLimited(msg) then "RPC rate limited: " + message
      else if Includes(msg, "nonce") then "Nonce error: " + message
      else if Includes(msg, "gas") then "Gas estimation failed: " + message
      else if IsTimeout(msg) then "Transaction confirmation timeout"
      else match data
        case Decoded(errorName, args) => FormatDecodedError(errorName, args)
        case Undecodable => "Transaction reverted on-chain"
        case NoData => message
  }

  function TruncateReason(reason: string): (r: string)
    ensures |r| <= 1000
  {
    if |reason| <= 1000 then reason else reason[..997] + "..."
  }

  predicate IsAlreadySponsoredError(failureReason: Option<string>) {
    failureReason.Some? && StartsWith(failureReason.value, ALREADY_SPONSORED)
  }

  // ---------------------------------------------------------------- relay results

  /** Whichever of the chain, the executor's deadline and its own lookups answers first. */
  datatype RelayAnswer =
    | Mined(hash: string, blockNumber: nat, explorerUrl: string, eventData: Option<GrantEvent>)
    | RevertedOnChain(hash: string, blockNumber: nat)
    | Threw(error: ThrownError, broadcastHash: Option<string>)
    | DeadlinePassed
    | NotInitialized
    | NoClient
    | RequestMissing(requestText: string)
    | LookupThrew(message: string)

  datatype RelayResult = RelayResult(
    success: bool,
    transactionHash: Option<string>,
    failureReason: Option<string>,
    blockNumber: Option<nat>,
    explorerUrl: Option<string>,
    eventData: Option<GrantEvent>
  )

  function ExecuteRelay(answer: RelayAnswer): RelayResult {
    match answer
    case Mined(hash, block, url, event) => RelayResult(true, Some(hash), None, Some(block), Some(url), event)
    case RevertedOnChain(hash, block) =>
      RelayResult(false, Some(hash), Some(TruncateReason("Transaction reverted on-chain")), Some(block), None, None)
    case Threw(e, hash) => RelayResult(false, hash, Some(TruncateReason(HandleExecutionError(e))), None, None, None)
    case DeadlinePassed => RelayResult(false, None, Some("Transaction confirmation timeout"), None, None, None)
    case NotInitialized =>
      RelayResult(false, None, Some(NOT_INITIALIZED), None, None, None)
    case NoClient => RelayResult(false, None, Some(NO_CLIENT), None, None, None)
    case RequestMissing(text) =>
      RelayResult(false, None, Some("Sponsorship request not found: " + text), None, None, None)
    case LookupThrew(message) => RelayResult(false, None, Some(message), None, None, None)
  }

  // ---------------------------------------------------------------- what is recognised

  lemma TruncationKeepsPrefix(s: string, prefix: string)
    requires |prefix| <= 997
    ensures StartsWith(TruncateReason(s), prefix) <==> StartsWith(s, prefix)
  {
    if |s| > 1000 {
      assert (s[..997] + "...")[..|prefix|] == s[..|prefix|];
    }
  }

  /** A text whose first character differs is not an AlreadySponsored text. */
  lemma OtherInitial(s: string)
    requires |s| > 0 && s[0] != 'A'
    ensures !StartsWith(s, ALREADY_SPONSORED)
  {
  }

  lemma FormatRecognised(errorName: string, args: seq<string>)
    ensures StartsWith(FormatDecodedError(errorName, args), ALREADY_SPONSORED) <==> errorName == ALREADY_SPONSORED
  {
    var text := FormatDecodedError(errorName, args);
    if errorName == ALREADY_SPONSORED {
      assert text[..|ALREADY_SPONSORED|] == ALREADY_SPONSORED;
    } else if errorName == "Unauthorized" {
      OtherInitial(text);
    } else if errorName in ["ExceedsLimit", "InsufficientBalance", "InvalidRecipient", "InvalidAmount"] {
      assert text[0] == errorName[0];
      OtherInitial(text);
    } else {
      assert text[0] == 'C';
      OtherInitial(text);
    }
  }

  /**
   Exactly when a thrown error is taken for AlreadySponsored, for every message and any length of
   text: no network pattern in the message, and either decodable AlreadySponsored data, or no data
   and a raw text that happens to begin with that word.
   */
  predicate LooksAlreadySponsored(e: ThrownError) {
    match e
    case NotAnError(text) => StartsWith(text, ALREADY_SPONSORED)
    case AnError(message, data) =>
      && !MatchesNetworkPattern(message)
      && (match data
          case Decoded(errorName, _) => errorName == ALREADY_SPONSORED
          case NoData => StartsWith(message, ALREADY_SPONSORED)
          case Undecodable => false)
  }

  lemma RecognisedExactly(e: ThrownError, hash: Option<string>)
    ensures IsAlreadySponsoredError(ExecuteRelay(Threw(e, hash)).failureReason) <==> LooksAlreadySponsored(e)
  {
    var text := HandleExecutionError(e);
    TruncationKeepsPrefix(text, ALREADY_SPONSORED);
    if e.AnError? {
      if MatchesNetworkPattern(e.message) {
        assert text[0] in {'C', 'R', 'N', 'G', 'T'};
        OtherInitial(text);
      } else if e.data.Decoded? {
        FormatRecognised(e.data.errorName, e.data.args);
      } else if e.data.Undecodable? {
        OtherInitial(text);
      }
    }
  }

  /** No other answer is ever taken for AlreadySponsored, except a lookup failure whose text begins with that word. */
  lemma OtherAnswersNotRecognised(answer: RelayAnswer)
    requires !answer.Threw?
    ensures IsAlreadySponsoredError(ExecuteRelay(answer).failureReason) <==>
            answer.LookupThrew? && StartsWith(answer.message, ALREADY_SPONSORED)
  {
    match answer
    case RevertedOnChain(_, _) =>
      TruncationKeepsPrefix("Transaction reverted on-chain", ALREADY_SPONSORED);
      OtherInitial("Transaction reverted on-chain");
    case DeadlinePassed => OtherInitial("Transaction confirmation timeout");
    case NotInitialized =>
      assert NOT_INITIALIZED[0] == 'R';
      OtherInitial(NOT_INITIALIZED);
    case NoClient =>
      assert NO_CLIENT[0] == 'C';
      OtherInitial(NO_CLIENT);
    case RequestMissing(text) => OtherInitial("Sponsorship request not found: " + text);
    case Mined(_, _, _, _) =>
    case LookupThrew(_) =>
  }
}
