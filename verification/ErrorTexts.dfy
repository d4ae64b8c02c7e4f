/** What the failure reasons say: how messages are classed, in any case and context, and what is kept of them. */
module ErrorTexts {
  import opened ContractClient

  // ---------------------------------------------------------------- lower case

  predicate IsUpper(c: char) {
    'A' <= c <= 'Z'
  }

  /** The same letter in lower case: 32 places on, as in ASCII. */
  predicate IsLowerOf(c: char, d: char) {
    if IsUpper(c) then 'a' <= d <= 'z' && d as int == c as int + 32 else d == c
  }

  /** Every capital becomes its small letter and nothing else changes, so case makes no difference. */
  lemma LowerCaseIs(s: string)
    ensures |ToLowerCase(s)| == |s| && forall i | 0 <= i < |s| :: IsLowerOf(s[i], ToLowerCase(s)[i])
    ensures (forall i | 0 <= i < |s| :: !IsUpper(s[i])) ==> ToLowerCase(s) == s
    ensures ToLowerCase(ToLowerCase(s)) == ToLowerCase(s)
  {
  }

  lemma LowerCaseJoins(s: string, t: string)
    ensures ToLowerCase(s + t) == ToLowerCase(s) + ToLowerCase(t)
  {
  }

  lemma IncludesInside(before: string, part: string, after: string)
    ensures Includes(before + part + after, part)
  {
    var s := before + part + after;
    assert s[|before|..] == part + after;
    assert StartsWith(s[|before|..], part);
  }

  lemma IncludesMeans(s: string, part: string)
    ensures Includes(s, part) <==> exists before, after :: s == before + part + after
  {
    if Includes(s, part) {
      var i :| 0 <= i <= |s| && StartsWith(s[i..], part);
      assert s == s[..i] + part + s[i + |part|..];
    }
    if before, after :| s == before + part + after {
      IncludesInside(before, part, after);
    }
  }

  // ---------------------------------------------------------------- the classes

  /** The words that are looked for before any revert data, in lower case. */
  predicate IsNetworkWord(word: string) {
    word in {"econnrefused", "etimedout", "connect", "429", "rate limit", "nonce", "gas", "timed out", "timeout"}
  }

  /** A message is taken for a network error exactly when it has one of the words somewhere, in any case. */
  lemma NetworkErrorExactly(message: string)
    ensures MatchesNetworkPattern(message)
            <==> exists word, before, after :: IsNetworkWord(word) && ToLowerCase(message) == before + word + after
  {
    var msg := ToLowerCase(message);
    forall word | IsNetworkWord(word)
      ensures Includes(msg, word) <==> exists before, after :: msg == before + word + after
    {
      IncludesMeans(msg, word);
    }
    assert MatchesNetworkPattern(message) <==> exists word :: IsNetworkWord(word) && Includes(msg, word) by {
      NetworkWords(message);
    }
  }

  lemma NetworkWords(message: string)
    ensures MatchesNetworkPattern(message)
            <==> exists word :: IsNetworkWord(word) && Includes(ToLowerCase(message), word)
  {
    hide ToLowerCase, Includes;
    var msg := ToLowerCase(message);
    assert IsNetworkWord("econnrefused") && IsNetworkWord("etimedout") && IsNetworkWord("connect");
    assert IsNetworkWord("429") && IsNetworkWord("rate limit") && IsNetworkWord("nonce") && IsNetworkWord("gas");
    assert IsNetworkWord("timed out") && IsNetworkWord("timeout");
  }

  /** Whatever surrounds the word, and whatever its case. */
  lemma NetworkWordInContext(before: string, word: string, after: string)
    requires IsNetworkWord(ToLowerCase(word))
    ensures MatchesNetworkPattern(before + word + after)
  {
    LowerCaseJoins(before + word, after);
    LowerCaseJoins(before, word);
    assert ToLowerCase(before + word + after) == ToLowerCase(before) + ToLowerCase(word) + ToLowerCase(after);
    NetworkErrorExactly(before + word + after);
  }

  /** The message has this word somewhere, in any case. */
  ghost predicate Mentions(message: string, word: string) {
    exists before, after :: ToLowerCase(message) == before + word + after
  }

  lemma MentionsMeans(message: string, word: string)
    ensures Mentions(message, word) <==> Includes(ToLowerCase(message), word)
  {
    IncludesMeans(ToLowerCase(message), word);
  }

  /**
   What the reason of a thrown error says. The words decide first, in this order; only the timeout drops
   the message. Without them decoded data is told by its name, and a message without data is kept as it is.
   */
  lemma ReasonTells(e: ThrownError)
    requires e.AnError?
    ensures var reason, message := HandleExecutionError(e), e.message;
      if Mentions(message, "econnrefused") || Mentions(message, "etimedout") || Mentions(message, "connect") then
        reason == "Connection error: " + message
      else if Mentions(message, "429") || Mentions(message, "rate limit") then
        reason == "RPC rate limited: " + message
      else if Mentions(message, "nonce") then reason == "Nonce error: " + message
      else if Mentions(message, "gas") then reason == "Gas estimation failed: " + message
      else if Mentions(message, "timed out") || Mentions(message, "timeout") then
        reason == "Transaction confirmation timeout"
      else match e.data
        case NoData => reason == message
        case Undecodable => reason == "Transaction reverted on-chain"
        case Decoded(name, args) => DecodedReason(reason, name, args)
  {
    hide Mentions, Includes, ToLowerCase, FormatDecodedError, DecodedReason;
    MentionsMeans(e.message, "econnrefused");
    MentionsMeans(e.message, "etimedout");
    MentionsMeans(e.message, "connect");
    MentionsMeans(e.message, "429");
    MentionsMeans(e.message, "rate limit");
    MentionsMeans(e.message, "nonce");
    MentionsMeans(e.message, "gas");
    MentionsMeans(e.message, "timed out");
    MentionsMeans(e.message, "timeout");
    if e.data.Decoded? {
      DecodedReasonTells(e.data.errorName, e.data.args);
    }
  }

  /** The names of the vault's errors that have a text of their own. */
  predicate IsVaultError(name: string) {
    || name == "Unauthorized" || name == "ExceedsLimit" || name == "InsufficientBalance"
    || name == "AlreadySponsored" || name == "InvalidRecipient" || name == "InvalidAmount"
  }

  /** Each of the vault's errors by its name, with its numbers if they came along, and any other name as it is. */
  predicate DecodedReason(reason: string, name: string, args: seq<string>) {
    && (name == "Unauthorized" ==> reason == "Unauthorized: caller is not the operator")
    && (name == "ExceedsLimit" && |args| >= 2 ==>
          reason == "ExceedsLimit: requested " + args[0] + ", limit " + args[1])
    && (name == "ExceedsLimit" && |args| < 2 ==> reason == "ExceedsLimit: amount exceeds per-transaction limit")
    && (name == "InsufficientBalance" && |args| >= 2 ==>
          reason == "InsufficientBalance: requested " + args[0] + ", available " + args[1])
    && (name == "InsufficientBalance" && |args| < 2 ==>
          reason == "InsufficientBalance: vault has insufficient funds")
    && (name == "AlreadySponsored" && |args| >= 1 ==> reason == "AlreadySponsored: " + args[0])
    && (name == "AlreadySponsored" && |args| < 1 ==> reason == "AlreadySponsored: recipient already sponsored")
    && (name == "InvalidRecipient" ==> reason == "InvalidRecipient: recipient address is invalid")
    && (name == "InvalidAmount" ==> reason == "InvalidAmount: sponsorship amount is invalid")
    && (!IsVaultError(name) ==> reason == "Contract error: " + name)
  }

  lemma DecodedReasonTells(name: string, args: seq<string>)
    ensures DecodedReason(FormatDecodedError(name, args), name, args)
  {
  }

  /** A stored reason has at most 1000 characters: all of a text that fits, or its first 997 and three dots. */
  lemma TruncationIs(reason: string)
    ensures |reason| <= 1000 ==> TruncateReason(reason) == reason
    ensures |reason| > 1000 ==>
              |TruncateReason(reason)| == 1000 && TruncateReason(reason)[..997] == reason[..997]
              && TruncateReason(reason)[997..] == "..."
  {
  }
}
