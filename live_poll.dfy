/**
 * A running poll (src/live_poll.rs): who has joined under which name, the
 * answer slots every item keeps per participant, and the question index
 * the host steps through.
 */
module LivePolls {
  import opened Wrappers
  import opened Strings
  import opened AppErrors
  import opened LiveItems

  /** A poll stops admitting participants once this many have joined. */
  const LIVE_POLL_PARTICIPANT_LIMIT: nat := 200

  /** The names a participant is given at random when joining. */
  const NAMES: seq<string> := [
    "Anonymous pig \U{1F437}",
    "Anonymous poodle \U{1F429}",
    "Anonymous lion \U{1F981}",
    "Anonymous unicorn \U{1F984}",
    "Anonymous zebra \U{1F993}",
    "Anonymous cow \U{1F42E}",
    "Anonymous orangutan \U{1F9A7}",
    "Anonmyous monkey \U{1F412}",
    "Anonymous rat \U{1F400}",
    "Anonymous chipmunk \U{1F43F}\U{FE0F}",
    "Anonymous beaver \U{1F9AB}",
    "Anonymous bear \U{1F43B}",
    "Anonymous koala \U{1F428}",
    "Anonymous panda \U{1F43C}"
  ]

  const NOT_JOINED: string := "Player with this auth token did not join the poll yet"

  /** A participant's authentication token (a UUID, as a number). */
  type Token = nat

  /** A participant: the name they were given, their score and their index into the per-participant lists. */
  datatype Player = Player(name: string, score: nat, playerIndex: nat)

  /** The two signals the host sends while presenting. */
  datatype Command = Next | Previous

  /** What the host's question area shows: an item, and whether it is the last one. */
  datatype QuestionAreaState = Showing(itemIdx: nat, isLastQuestion: bool)

  /**
   * `name` is the one `join` picks for the drawn `base`: `base` itself when
   * nobody has it, otherwise `"base (n)"` for the smallest `n >= 2` not taken.
   */
  ghost predicate FreshName(names: set<string>, base: string, name: string)
  {
    || (base !in names && name == base)
    || (&& base in names
        && exists n: nat {:trigger WithNumber(base, n)} :: n >= 2 && name == WithNumber(base, n) && name !in names
             && forall m: nat :: 2 <= m < n ==> WithNumber(base, m) in names)
  }

  /** The answer objects of all items. */
  ghost function ItemObjects(items: seq<LiveItem>): set<object>
  {
    set i, o | 0 <= i < |items| && o in AnswerObjects(items[i].answers) :: o
  }

  /** No two items share an answer object. */
  ghost predicate ItemsDisjoint(items: seq<LiveItem>)
  {
    forall i, j :: 0 <= i < j < |items| ==> AnswerObjects(items[i].answers) !! AnswerObjects(items[j].answers)
  }

  /** Index stepping of the presentation loop: next goes forward, previous goes back but not below 0. */
  function Step(idx: nat, c: Command): (r: nat)
    ensures c.Next? ==> r == idx + 1
    ensures c.Previous? && idx > 0 ==> r + 1 == idx
    ensures c.Previous? && idx == 0 ==> r == 0
  {
    match c
    case Next => idx + 1
    case Previous => if idx > 0 then idx - 1 else idx
  }

  /**
   * The presentation loop over `len` items from index `idx`, fed `cmds`:
   * the states the question area shows, in order, and the index it ends at.
   * It ends when the index reaches `len`, or waits on the last item shown
   * when the commands run out.
   */
  function Run(len: nat, idx: nat, cmds: seq<Command>): (seq<QuestionAreaState>, nat)
    decreases |cmds|
  {
    if idx >= len then ([], idx)
    else if cmds == [] then ([Showing(idx, idx + 1 == len)], idx)
    else
      var rest := Run(len, Step(idx, cmds[0]), cmds[1..]);
      ([Showing(idx, idx + 1 == len)] + rest.0, rest.1)
  }

  /** Only existing items are shown, the last-question flag is exact, and finishing means passing the last item. */
  lemma {:induction false} RunShowsItems(len: nat, idx: nat, cmds: seq<Command>)
    requires idx <= len
    ensures forall k :: 0 <= k < |Run(len, idx, cmds).0| ==>
      && Run(len, idx, cmds).0[k].itemIdx < len
      && (Run(len, idx, cmds).0[k].isLastQuestion <==> Run(len, idx, cmds).0[k].itemIdx + 1 == len)
    ensures Run(len, idx, cmds).1 >= len ==> Run(len, idx, cmds).1 == len
    decreases |cmds|
  {
    if idx < len && cmds != [] {
      RunShowsItems(len, Step(idx, cmds[0]), cmds[1..]);
    }
  }

  /** With only "next" signals, the poll finishes exactly when there are enough of them to pass every item. */
  lemma {:induction false} RunNextFinishes(len: nat, idx: nat, n: nat)
    ensures Run(len, idx, seq(n, _ => Next)).1 >= len <==> idx + n >= len
    ensures idx < len ==> |Run(len, idx, seq(n, _ => Next)).0| == if idx + n >= len then len - idx else n + 1
    decreases n
  {
    var cmds := seq(n, _ => Next);
    if idx < len && n > 0 {
      assert cmds[1..] == seq(n - 1, _ => Next);
      RunNextFinishes(len, idx + 1, n - 1);
    }
  }

  /**
   * The name `join` hands out for the drawn name `base`: `base` if free,
   * else the first `"base (n)"`, counting from 2, that is not taken.
   */
  method PickName(names: set<string>, base: string) returns (name: string)
    ensures FreshName(names, base, name)
    ensures name !in names
  {
    name := base;
    if name in names {
      var n := 2;
      ghost var remaining := names;
      while WithNumber(base, n) in names
        invariant n >= 2
        invariant forall m: nat :: 2 <= m < n ==> WithNumber(base, m) in names
        invariant forall m: nat :: m >= n && WithNumber(base, m) in names ==> WithNumber(base, m) in remaining
        decreases |remaining|
      {
        forall m: nat | m >= n + 1 && WithNumber(base, m) in names
          ensures WithNumber(base, m) in remaining - {WithNumber(base, n)}
        {
          if WithNumber(base, m) == WithNumber(base, n) {
            WithNumberSameBase(base, m, n);
          }
        }
        remaining := remaining - {WithNumber(base, n)};
        n := n + 1;
      }
      name := WithNumber(base, n);
    }
  }

  /**
   * Participant names and indices are distinct, every index is below the
   * number of participants, and every name is among the names handed out.
   */
  ghost predicate PlayersOk(players: map<Token, Player>, names: set<string>)
  {
    && (forall t :: t in players ==> players[t].name in names && players[t].playerIndex < |players|)
    && (forall t, u :: t in players && u in players && t != u ==>
          players[t].name != players[u].name && players[t].playerIndex != players[u].playerIndex)
  }

  /** Admitting a new token under a fresh name with the next index keeps the participants consistent. */
  lemma JoinKeepsPlayersOk(players: map<Token, Player>, names: set<string>, token: Token, name: string)
    requires PlayersOk(players, names)
    requires token !in players && name !in names
    ensures |players[token := Player(name, 0, |players|)]| == |players| + 1
    ensures PlayersOk(players[token := Player(name, 0, |players|)], names + {name})
  {
    var q := players[token := Player(name, 0, |players|)];
    assert q.Keys == players.Keys + {token};
    assert |q| == |players| + 1;
    forall t | t in q
      ensures q[t].name in names + {name} && q[t].playerIndex < |q|
    {
      if t != token {
        assert q[t] == players[t];
      }
    }
    forall t, u | t in q && u in q && t != u
      ensures q[t].name != q[u].name && q[t].playerIndex != q[u].playerIndex
    {
      if t == token {
        assert q[u] == players[u] && players[u].playerIndex < |players|;
      } else if u == token {
        assert q[t] == players[t] && players[t].playerIndex < |players|;
      } else {
        assert q[t] == players[t] && q[u] == players[u];
      }
    }
    assert PlayersOk(q, names + {name});
  }

  class LivePoll {
    const items: seq<LiveItem>
    /** The participants by token. */
    var players: map<Token, Player>
    /** Every name handed out so far. */
    var playerNames: set<string>
    /** The item the host is presenting. */
    var currentItemIdx: nat

    /**
     * Items are consistent and keep one answer slot per participant (the
     * join code keeps none); participant names and indices are distinct,
     * indices are below the number of participants, names are recorded.
     */
    ghost predicate Valid()
      reads this, items, ItemObjects(items)
    {
      && ItemsOk(|players|)
      && PlayersOk(players, playerNames)
    }

    /** Items are consistent, share no answer objects and keep `n` answer slots each (the join code none). */
    ghost predicate ItemsOk(n: nat)
      reads items, ItemObjects(items)
    {
      && ItemsDisjoint(items)
      && (forall i :: 0 <= i < |items| ==> items[i].Valid())
      && (forall i :: 0 <= i < |items| && !items[i].answers.JoinCode? ==> items[i].AnswerSlots() == n)
    }

    /** The state `LivePoll::new` starts from: the items, nobody joined, the first item current. */
    constructor (items: seq<LiveItem>)
      requires ItemsDisjoint(items)
      requires forall i :: 0 <= i < |items| ==> items[i].Valid() && items[i].AnswerSlots() == 0
      ensures Valid()
      ensures this.items == items && players == map[] && playerNames == {} && currentItemIdx == 0
    {
      this.items := items;
      players := map[];
      playerNames := {};
      currentItemIdx := 0;
    }

    /**
     * `join`: a known token gets its name back; a full poll admits nobody;
     * otherwise the participant gets a name no one has (the drawn
     * `NAMES[nameIndex]`, numbered if taken), the next index, score 0, and
     * every item an empty answer slot.
     */
    method Join(token: Token, nameIndex: nat) returns (r: Option<string>)
      requires Valid()
      requires nameIndex < |NAMES|
      modifies this, ItemObjects(items)
      ensures Valid()
      ensures token in old(players) ==>
        && r == Some(old(players)[token].name)
        && players == old(players) && playerNames == old(playerNames)
      ensures token !in old(players) && |old(players)| >= LIVE_POLL_PARTICIPANT_LIMIT ==>
        && r.None?
        && players == old(players) && playerNames == old(playerNames)
      ensures token !in old(players) && |old(players)| < LIVE_POLL_PARTICIPANT_LIMIT ==>
        && r.Some?
        && FreshName(old(playerNames), NAMES[nameIndex], r.value)
        && players == old(players)[token := Player(r.value, 0, |old(players)|)]
        && playerNames == old(playerNames) + {r.value}
      ensures token in old(players) || |old(players)| >= LIVE_POLL_PARTICIPANT_LIMIT ==>
        unchanged(ItemObjects(items))
      ensures token !in old(players) && |old(players)| < LIVE_POLL_PARTICIPANT_LIMIT ==>
        forall k :: 0 <= k < |items| ==> items[k].State() == WithEmptySlot(old(items[k].State()))
      ensures currentItemIdx == old(currentItemIdx)
    {
      if token in players {
        r := Some(players[token].name);
      } else if |players| >= LIVE_POLL_PARTICIPANT_LIMIT {
        r := None;
      } else {
        var newName := PickName(playerNames, NAMES[nameIndex]);
        assert forall k :: 0 <= k < |items| ==> items[k].State() == old(items[k].State());
        Admit(token, newName);
        r := Some(newName);
      }
    }

    /**
     * The second half of `join`: records the participant under `name` with
     * the next index and score 0, and gives every item an answer slot.
     */
    method Admit(token: Token, name: string)
      requires Valid()
      requires token !in players && name !in playerNames
      modifies this, ItemObjects(items)
      ensures Valid()
      ensures players == old(players)[token := Player(name, 0, |old(players)|)]
      ensures playerNames == old(playerNames) + {name}
      ensures forall k :: 0 <= k < |items| ==> items[k].State() == WithEmptySlot(old(items[k].State()))
      ensures currentItemIdx == old(currentItemIdx)
    {
      var newPlayerIdx := |players|;
      assert this !in ItemObjects(items);
      assert ItemsOk(newPlayerIdx);
      JoinKeepsPlayersOk(players, playerNames, token, name);
      players := players[token := Player(name, 0, newPlayerIdx)];
      playerNames := playerNames + {name};
      AddAnswerSlots(newPlayerIdx);
    }

    /** The loop of `join` that gives every item an empty answer slot for the new participant. */
    method AddAnswerSlots(n: nat)
      requires ItemsOk(n)
      modifies ItemObjects(items)
      ensures ItemsOk(n + 1)
      ensures forall k :: 0 <= k < |items| ==> items[k].State() == WithEmptySlot(old(items[k].State()))
    {
      var i := 0;
      while i < |items|
        invariant 0 <= i <= |items|
        invariant forall k :: 0 <= k < |items| ==> items[k].Valid()
        invariant forall k :: 0 <= k < i ==> items[k].State() == WithEmptySlot(old(items[k].State()))
        invariant forall k :: i <= k < |items| ==> items[k].State() == old(items[k].State())
      {
        PushSlotAt(i);
        i := i + 1;
      }
    }

    method PushSlotAt(i: nat)
      requires ItemsDisjoint(items)
      requires i < |items| && items[i].Valid()
      modifies AnswerObjects(items[i].answers)
      ensures items[i].Valid()
      ensures !items[i].answers.JoinCode? ==> items[i].AnswerSlots() == old(items[i].AnswerSlots()) + 1
      ensures items[i].answers.JoinCode? ==> items[i].AnswerSlots() == old(items[i].AnswerSlots())
      ensures items[i].State() == WithEmptySlot(old(items[i].State()))
      ensures forall k :: 0 <= k < |items| && k != i ==> unchanged(AnswerObjects(items[k].answers))
    {
      items[i].PushAnswerSlot();
    }

    /** `get_player`: the participant with this token, or a bad-request error if they have not joined. */
    function GetPlayer(token: Token): (r: Result<Player, AppError>)
      reads this
      ensures r.Ok? <==> token in players
      ensures r.Ok? ==> r.value == players[token]
      ensures r.Err? ==> r.error == BadRequest(NOT_JOINED)
    {
      if token in players then Ok(players[token]) else Err(BadRequest(NOT_JOINED))
    }

    /** `get_current_item`: the item being presented; the index must be in range. */
    function GetCurrentItem(): (it: LiveItem)
      reads this
      requires currentItemIdx < |items|
      ensures it in items
    {
      items[currentItemIdx]
    }

    /**
     * The presentation loop: shows items from the first one, stepping on each
     * command, setting the current item as it goes, until the index passes
     * the last item or the commands run out.
     */
    method Present(commands: seq<Command>) returns (shown: seq<QuestionAreaState>, finished: bool)
      modifies this
      ensures shown == Run(|items|, 0, commands).0
      ensures finished <==> Run(|items|, 0, commands).1 >= |items|
      ensures shown != [] ==> currentItemIdx == shown[|shown| - 1].itemIdx
      ensures shown == [] ==> currentItemIdx == old(currentItemIdx)
      ensures players == old(players) && playerNames == old(playerNames)
    {
      var questionIdx: nat := 0;
      var k: nat := 0;
      shown := [];
      while questionIdx < |items|
        invariant 0 <= k <= |commands|
        invariant shown + Run(|items|, questionIdx, commands[k..]).0 == Run(|items|, 0, commands).0
        invariant Run(|items|, questionIdx, commands[k..]).1 == Run(|items|, 0, commands).1
        invariant shown != [] ==> currentItemIdx == shown[|shown| - 1].itemIdx
        invariant shown == [] ==> currentItemIdx == old(currentItemIdx)
        invariant players == old(players) && playerNames == old(playerNames)
        decreases |commands| - k
      {
        currentItemIdx := questionIdx;
        shown := shown + [Showing(questionIdx, questionIdx + 1 == |items|)];
        if k == |commands| {
          assert commands[k..] == [];
          break;
        }
        assert commands[k..][1..] == commands[k + 1..];
        questionIdx := Step(questionIdx, commands[k]);
        k := k + 1;
      }
      finished := questionIdx >= |items|;
    }
  }
}
