/** Broker status words read as local statuses (normalize_broker_status in execution/broker.py). */
module BrokerStatus {
  import opened Models
  import opened IntentState

  /** Upper case with underscores removed (ASCII). */
  function Fold(s: string): (r: string)
    ensures forall k :: 0 <= k < |r| ==> r[k] != '_' && !('a' <= r[k] <= 'z')
  {
    if s == [] then []
    else if s[0] == '_' then Fold(s[1..])
    else if 'a' <= s[0] <= 'z' then [(s[0] as int - 32) as char] + Fold(s[1..])
    else [s[0]] + Fold(s[1..])
  }

  const ENUM_PREFIX: string := "OrderStatus."

  const ACTIVE_WORDS: set<string> := {
    "NOTREPORTED", "REPLACEDNOTREPORTED", "PROTECTEDNOTREPORTED", "VARIETIESNOTREPORTED", "WAITTONEW",
    "NEW", "NEWSTATUS", "WAITTOREPLACE", "PENDINGREPLACESTATUS", "REPLACEDSTATUS", "PARTIALFILLED",
    "PARTIALFILLEDSTATUS", "WAITTOCANCEL", "PENDINGCANCELSTATUS", "SUBMITTED" }

  const CANCEL_WORDS: set<string> := {
    "CANCELED", "CANCELEDSTATUS", "CANCELLED", "EXPIRED", "EXPIREDSTATUS", "PARTIALWITHDRAWAL" }

  /** The word that is looked up: the enum prefix dropped, upper case, no underscores. */
  function StatusKey(raw: string): string {
    var value := if raw == "" then "UNKNOWN" else raw;
    Fold(if ENUM_PREFIX <= value then value[|ENUM_PREFIX|..] else value)
  }

  /** The status of a broker order as the local state machine names it; None for any other word. */
  function NormalizeBrokerStatus(raw: string): Option<IntentStatus> {
    var key := StatusKey(raw);
    if key in ACTIVE_WORDS then Some(Submitted)
    else if key == "FILLED" || key == "FILLEDSTATUS" then Some(Filled)
    else if key in CANCEL_WORDS then Some(Cancelled)
    else if key == "REJECTED" || key == "REJECTEDSTATUS" then Some(Rejected)
    else if key == "PENDING" then Some(Pending)
    else if key == "SUBMITTING" then Some(Submitting)
    else if key == "UNKNOWN" then Some(Unknown)
    else None
  }

  lemma {:induction false} FoldTwice(s: string)
    ensures Fold(Fold(s)) == Fold(s)
  {
    if s != [] {
      FoldTwice(s[1..]);
      if s[0] != '_' { assert Fold(s)[1..] == Fold(s[1..]); }
    }
  }

  lemma {:induction false} FoldedHasNoPrefix(raw: string)
    ensures !(ENUM_PREFIX <= Fold(raw))
  {
    assert ENUM_PREFIX[1] == 'r';
    if |Fold(raw)| > 1 { assert Fold(raw)[1] != 'r'; }
  }

  /** The word that is looked up does not depend on case and underscores, except that a word of nothing but
      underscores is not an empty word. */
  lemma {:induction false} SpellingDoesNotMatter(raw: string)
    requires Fold(raw) != "" && !(ENUM_PREFIX <= raw)
    ensures StatusKey(Fold(raw)) == StatusKey(raw)
  {
    FoldTwice(raw);
    FoldedHasNoPrefix(raw);
  }

  /** The word of a local status. */
  function StatusWord(status: IntentStatus): string {
    match status
    case Pending => "PENDING"
    case Submitting => "SUBMITTING"
    case Submitted => "SUBMITTED"
    case Filled => "FILLED"
    case Rejected => "REJECTED"
    case Cancelled => "CANCELLED"
    case Unknown => "UNKNOWN"
  }

  lemma StatusWordIsRead(status: IntentStatus)
    ensures var key := StatusWord(status);
            && (key in ACTIVE_WORDS <==> status.Submitted?) && (key in CANCEL_WORDS <==> status.Cancelled?)
            && |key| > 0
  {
    var key := StatusWord(status);
    assert key[0] in {'P', 'S', 'F', 'R', 'C', 'U'};
    assert |key| in {7, 10, 9, 6, 8};
  }

  /** Whatever the case, the underscores and the enum prefix, a broker's spelling of a local status is read as it. */
  lemma EverySpellingIsRead(raw: string, status: IntentStatus)
    requires Fold(raw) == StatusWord(status) && !(ENUM_PREFIX <= raw)
    ensures NormalizeBrokerStatus(raw) == Some(status) && NormalizeBrokerStatus(ENUM_PREFIX + raw) == Some(status)
  {
    StatusWordIsRead(status);
    assert (ENUM_PREFIX + raw)[|ENUM_PREFIX|..] == raw;
  }
}
