/**
 * The lyric memo of a song (`Song.getLyric`) as a state machine on one
 * slot. The slot holds the decoded lyric; `""` is the unset slot, because
 * the source tests the slot by truthiness and an empty string is falsy.
 * The remote response and the base64 decoder are inputs.
 */
module LyricCache {

  import opened ApiConfig

  /** The remote lyric service's reply: a status code and a base64 body. */
  datatype Response = Response(retcode: int, lyric: string)

  /** How the promise `getLyric` returns settles. */
  datatype Outcome = Resolved(text: string) | Rejected(reason: string)

  /** One call: the slot afterwards, how it settled, and whether the remote was asked. */
  datatype Call = Call(slot: string, outcome: Outcome, requested: bool)

  /** The rejection value of a reply whose code is not `ERR_OK`. */
  const NO_LYRIC := "no lyric"

  /**
   * One call of `getLyric` on a record whose slot is `slot`; `res` is what
   * the remote would answer and `decode` is `Base64.decode`.
   */
  function GetLyricStep(slot: string, res: Response, decode: string -> string): (c: Call)
    // the remote is asked exactly when the slot is unset
    ensures c.requested <==> slot == ""
    // a filled slot answers from the memo and stays as it is
    ensures !c.requested ==> c.slot == slot && c.outcome == Resolved(slot)
    // the promise resolves exactly when the memo or the reply succeeds
    ensures c.outcome.Resolved? <==> slot != "" || res.retcode == ERR_OK
    // it resolves with exactly the value now stored
    ensures c.outcome.Resolved? ==> c.outcome.text == c.slot
    // a fetched success stores the decoded body
    ensures c.requested && res.retcode == ERR_OK ==> c.slot == decode(res.lyric)
    // a rejection is 'no lyric' and changes nothing
    ensures c.outcome.Rejected? ==> c.outcome.reason == NO_LYRIC && c.slot == slot
  {
    if slot != "" then Call(slot, Resolved(slot), false)
    else if res.retcode == ERR_OK then
      var text := decode(res.lyric);
      Call(text, Resolved(text), true)
    else Call(slot, Rejected(NO_LYRIC), true)
  }

  /** A series of calls on one record: the final slot, each outcome, and the number of requests. */
  datatype History = History(slot: string, outcomes: seq<Outcome>, requests: nat)

  /** `getLyric` called once per reply in `replies`, each call settling before the next. */
  function Run(slot: string, replies: seq<Response>, decode: string -> string): (h: History)
    ensures |h.outcomes| == |replies|
    ensures h.requests <= |replies|
    decreases |replies|
  {
    if replies == [] then History(slot, [], 0)
    else
      var c := GetLyricStep(slot, replies[0], decode);
      var rest := Run(c.slot, replies[1..], decode);
      History(rest.slot, [c.outcome] + rest.outcomes,
              rest.requests + (if c.requested then 1 else 0))
  }

  /**
   * Once the slot is filled it is never overwritten: every later call
   * resolves with the memo, and no remote request is made.
   */
  lemma {:induction false} FilledSlotIsFinal(slot: string, replies: seq<Response>, decode: string -> string)
    requires slot != ""
    ensures Run(slot, replies, decode).slot == slot
    ensures Run(slot, replies, decode).requests == 0
    ensures forall i :: 0 <= i < |replies| ==> Run(slot, replies, decode).outcomes[i] == Resolved(slot)
    decreases |replies|
  {
    if replies != [] {
      FilledSlotIsFinal(slot, replies[1..], decode);
    }
  }

  /**
   * Replies that all fail leave the slot unset: every call asks the remote
   * again and rejects with 'no lyric'.
   */
  lemma {:induction false} FailuresLeaveSlotUnset(replies: seq<Response>, decode: string -> string)
    requires forall i :: 0 <= i < |replies| ==> replies[i].retcode != ERR_OK
    ensures Run("", replies, decode).slot == ""
    ensures Run("", replies, decode).requests == |replies|
    ensures forall i :: 0 <= i < |replies| ==> Run("", replies, decode).outcomes[i] == Rejected(NO_LYRIC)
    decreases |replies|
  {
    if replies != [] {
      FailuresLeaveSlotUnset(replies[1..], decode);
    }
  }

  /**
   * Memoisation: after a first call that resolves with a non-empty lyric,
   * the series as a whole makes one request and every call resolves with
   * that same text.
   */
  lemma MemoAfterSuccess(first: Response, later: seq<Response>, decode: string -> string)
    requires first.retcode == ERR_OK && decode(first.lyric) != ""
    ensures Run("", [first] + later, decode).requests == 1
    ensures Run("", [first] + later, decode).slot == decode(first.lyric)
    ensures forall i :: 0 <= i <= |later| ==> Run("", [first] + later, decode).outcomes[i] == Resolved(decode(first.lyric))
  {
    FilledSlotIsFinal(decode(first.lyric), later, decode);
  }

  /**
   * The memo is a truthiness test: a successful reply whose body decodes
   * to `""` resolves with `""` but caches nothing, so the next call asks
   * the remote again.
   */
  lemma EmptyLyricIsRefetched(first: Response, second: Response, decode: string -> string)
    requires first.retcode == ERR_OK && decode(first.lyric) == ""
    ensures Run("", [first, second], decode).outcomes[0] == Resolved("")
    ensures Run("", [first, second], decode).requests == 2
  {
  }

  /**
   * Whatever the slot holds after a series of calls is its initial value
   * or the decoded body of one of the successful replies.
   */
  lemma {:induction false} SlotComesFromSuccess(slot: string, replies: seq<Response>, decode: string -> string)
    ensures var h := Run(slot, replies, decode);
      h.slot == slot ||
      exists i :: 0 <= i < |replies| && replies[i].retcode == ERR_OK && h.slot == decode(replies[i].lyric)
    decreases |replies|
  {
    if replies != [] {
      var c := GetLyricStep(slot, replies[0], decode);
      SlotComesFromSuccess(c.slot, replies[1..], decode);
      var h := Run(c.slot, replies[1..], decode);
      if h.slot != c.slot {
        var j :| 0 <= j < |replies[1..]| && replies[1..][j].retcode == ERR_OK && h.slot == decode(replies[1..][j].lyric);
        assert replies[j + 1] == replies[1..][j];
      } else if c.slot != slot {
        assert replies[0].retcode == ERR_OK && c.slot == decode(replies[0].lyric);
      }
    }
  }

  /**
   * A call that finds the slot filled does not depend on the remote's
   * reply at all.
   */
  lemma FilledSlotIgnoresReply(slot: string, r1: Response, r2: Response, decode: string -> string)
    requires slot != ""
    ensures GetLyricStep(slot, r1, decode) == GetLyricStep(slot, r2, decode)
  {
  }
}
