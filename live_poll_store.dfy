/**
 * The table of running polls by short numeric id (src/live_poll_store.rs),
 * and how a fresh id is drawn for a new poll.
 */
module LivePollStores {
  import opened Wrappers
  import opened Sequences
  import opened AppErrors

  /** A poll's short id, as participants type it (`u32`). */
  type ShortID = nat

  /** How many random ids each of the two searches draws. */
  const DRAWS_PER_SEARCH: nat := 1000

  const NO_FREE_ID: string :=
    "Could not find a short id (between 1000 and 999 999 while creating a new live quiz."

  function IsFree(taken: set<ShortID>): ShortID -> bool
  {
    (id: ShortID) => id !in taken
  }

  /** The first drawn id that is not taken, as `find` returns it. */
  function FirstFree(draws: seq<ShortID>, taken: set<ShortID>): (r: Option<ShortID>)
    ensures r.Some? ==> r.value in draws && r.value !in taken
    ensures r.Some? ==> exists k :: (0 <= k < |draws| && draws[k] == r.value
      && forall j :: 0 <= j < k ==> draws[j] in taken)
    ensures r.None? <==> forall i :: 0 <= i < |draws| ==> draws[i] in taken
  {
    match Position(draws, IsFree(taken))
    case Some(k) => Some(draws[k])
    case None => None
  }

  /** The loop `find` runs over the draws. */
  method FindFree(draws: seq<ShortID>, taken: set<ShortID>) returns (r: Option<ShortID>)
    ensures r == FirstFree(draws, taken)
  {
    var k := FindPosition(draws, IsFree(taken));
    if k.Some? {
      return Some(draws[k.value]);
    }
    return None;
  }

  /**
   * The id `insert` settles on: the first free four-digit draw, else the
   * first free longer draw. The second search runs whatever the first found
   * (it is the eagerly evaluated argument of `unwrap_or`), and when it finds
   * nothing the whole insertion fails, even if a four-digit id was free.
   */
  function ChooseId(shortDraws: seq<ShortID>, longDraws: seq<ShortID>, taken: set<ShortID>): (r: Result<ShortID, AppError>)
    ensures r.Err? <==> FirstFree(longDraws, taken).None?
    ensures r.Err? ==> r.error == OtherInternalServerError(NO_FREE_ID)
    ensures r.Ok? ==> r.value !in taken
    ensures r.Ok? && FirstFree(shortDraws, taken).Some? ==> r.value == FirstFree(shortDraws, taken).value
    ensures r.Ok? && FirstFree(shortDraws, taken).None? ==> r.value == FirstFree(longDraws, taken).value
  {
    var fallback := FirstFree(longDraws, taken);
    if fallback.None? then Err(OtherInternalServerError(NO_FREE_ID))
    else match FirstFree(shortDraws, taken)
      case Some(id) => Ok(id)
      case None => Ok(fallback.value)
  }

  /** A successful id comes from the four-digit range when one of those draws was free, else from the longer range. */
  lemma ChooseIdRange(shortDraws: seq<ShortID>, longDraws: seq<ShortID>, taken: set<ShortID>)
    requires forall i :: 0 <= i < |shortDraws| ==> 1000 <= shortDraws[i] < 10000
    requires forall i :: 0 <= i < |longDraws| ==> 10000 <= longDraws[i] < 1000000
    ensures var r := ChooseId(shortDraws, longDraws, taken);
      r.Ok? ==> if FirstFree(shortDraws, taken).Some? then 1000 <= r.value < 10000 else 10000 <= r.value < 1000000
  {
    var r := ChooseId(shortDraws, longDraws, taken);
    if r.Ok? {
      if FirstFree(shortDraws, taken).Some? {
        assert r.value in shortDraws;
      } else {
        assert r.value in longDraws;
      }
    }
  }

  /**
   * Because the fallback search is eager, the insertion can fail although a
   * four-digit id was free: for instance when every long draw is taken.
   */
  lemma EagerFallbackFails()
    ensures ChooseId([1000], [10000], {10000}).Err?
    ensures FirstFree([1000], {10000}) == Some(1000)
  {
    assert FirstFree([10000], {10000}).None?;
  }

  class LivePollStore<Poll> {
    var polls: map<ShortID, Poll>

    /** `LivePollStore::new`: no polls. */
    constructor ()
      ensures polls == map[]
    {
      polls := map[];
    }

    /** `get`: the poll with this id, if there is one. */
    function Get(id: ShortID): (r: Option<Poll>)
      reads this
      ensures r.Some? <==> id in polls
      ensures r.Some? ==> r.value == polls[id]
    {
      if id in polls then Some(polls[id]) else None
    }

    /**
     * `insert`: stores the poll under a fresh id drawn as `ChooseId` says,
     * from `shortDraws` (ids in [1000, 10000)) and `longDraws` (ids in
     * [10000, 1000000)); on failure the table is left as it was.
     */
    method Insert(poll: Poll, shortDraws: seq<ShortID>, longDraws: seq<ShortID>) returns (r: Result<ShortID, AppError>)
      requires |shortDraws| == DRAWS_PER_SEARCH && |longDraws| == DRAWS_PER_SEARCH
      requires forall i :: 0 <= i < |shortDraws| ==> 1000 <= shortDraws[i] < 10000
      requires forall i :: 0 <= i < |longDraws| ==> 10000 <= longDraws[i] < 1000000
      modifies this
      ensures r == ChooseId(shortDraws, longDraws, old(polls).Keys)
      ensures r.Ok? ==> r.value !in old(polls) && polls == old(polls)[r.value := poll]
      ensures r.Err? ==> polls == old(polls)
    {
      var first := FindFree(shortDraws, polls.Keys);
      var second := FindFree(longDraws, polls.Keys);
      if second.None? {
        return Err(OtherInternalServerError(NO_FREE_ID));
      }
      var id := if first.Some? then first.value else second.value;
      polls := polls[id := poll];
      return Ok(id);
    }

    /** `remove`: forgets one id; an absent id changes nothing. */
    method Remove(id: ShortID)
      modifies this
      ensures polls == old(polls) - {id}
      ensures id !in old(polls) ==> polls == old(polls)
    {
      polls := polls - {id};
    }
  }
}
