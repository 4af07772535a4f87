/**
 * Profile-page logic of the bwitter client (components/User.tsx).
 *
 * The page shows the tweets of the user `props.id` (a base58 key string), newest
 * index first, that user's name, whether the connected wallet follows them, and a
 * follow button.
 */
module User {
  import opened Util
  import opened Tweet
  import Feed

  // ---------------------------------------------------------------------------
  // getAllPost: count down from tweetCount - 1, stop at the first failure
  // ---------------------------------------------------------------------------

  /**
   * The cards getAllPost collects from indices n-1, n-2, ... of `owner`: the run
   * ends at the first index whose fetch throws.
   */
  function NewestRun(w: Web3, p: Program, owner: Key, id: string, author: StateAccount, n: nat)
    : seq<TweetProps>
    requires n <= author.tweetCount
  {
    if n == 0 then []
    else
      match GetTweetAccount(w, p, owner, n - 1)
      case None => []
      case Some(t) => [Card(author, id, t)] + NewestRun(w, p, owner, id, author, n - 1)
  }

  /** What getAllPost returns for the profile `owner` parsed from `id`. */
  function ProfilePosts(w: Web3, p: Program, owner: Key, id: string): seq<TweetProps>
  {
    match GetStateAccount(w, p, owner)
    case None => []
    case Some(author) => NewestRun(w, p, owner, id, author, author.tweetCount)
  }

  /**
   * The run never exceeds n cards, and when it is shorter than n, the fetch at the
   * next index down is the one that threw.
   */
  lemma {:induction false} NewestRunStops(w: Web3, p: Program, owner: Key, id: string, author: StateAccount, n: nat)
    requires n <= author.tweetCount
    ensures |NewestRun(w, p, owner, id, author, n)| <= n
    ensures |NewestRun(w, p, owner, id, author, n)| < n ==>
      GetTweetAccount(w, p, owner, n - 1 - |NewestRun(w, p, owner, id, author, n)|).None?
  {
    if n > 0 {
      var t := GetTweetAccount(w, p, owner, n - 1);
      if t.Some? {
        assert NewestRun(w, p, owner, id, author, n)
          == [Card(author, id, t.value)] + NewestRun(w, p, owner, id, author, n - 1);
        NewestRunStops(w, p, owner, id, author, n - 1);
      }
    }
  }

  /**
   * The j-th card is the tweet at index n-1-j (descending index order), fetched
   * successfully, carrying the profile's username and the key text `id`.
   */
  lemma {:induction false} NewestRunAt(w: Web3, p: Program, owner: Key, id: string, author: StateAccount, n: nat, j: nat)
    requires n <= author.tweetCount
    requires j < |NewestRun(w, p, owner, id, author, n)|
    ensures j < n
    ensures GetTweetAccount(w, p, owner, n - 1 - j).Some?
    ensures NewestRun(w, p, owner, id, author, n)[j] == Card(author, id, GetTweetAccount(w, p, owner, n - 1 - j).value)
  {
    var t := GetTweetAccount(w, p, owner, n - 1);
    assert t.Some?;
    var rest := NewestRun(w, p, owner, id, author, n - 1);
    assert NewestRun(w, p, owner, id, author, n) == [Card(author, id, t.value)] + rest;
    if j > 0 {
      NewestRunAt(w, p, owner, id, author, n - 1, j - 1);
      assert NewestRun(w, p, owner, id, author, n)[j] == rest[j - 1];
    }
  }

  /**
   * getAllPost: the profile's tweets from index tweetCount-1 downwards, each card
   * carrying the profile's username and `id`, collection ending at the first tweet
   * fetch that throws; empty when the profile fetch throws.
   */
  method GetAllPost(w: Web3, p: Program, wallet: Option<Key>, id: string) returns (r: Result<seq<TweetProps>>)
    ensures wallet.None? ==> r == Failure(WalletNotConnected)
    ensures wallet.Some? && w.parseKey(id).None? ==> r == Failure(InvalidPublicKey)
    ensures wallet.Some? && w.parseKey(id).Some? ==> r == Success(ProfilePosts(w, p, w.parseKey(id).value, id))
  {
    if wallet.None? {
      return Failure(WalletNotConnected);
    }
    var userKey := w.parseKey(id);
    if userKey.None? {
      return Failure(InvalidPublicKey);
    }
    var arr: seq<TweetProps> := [];
    var stateAccount := GetStateAccount(w, p, userKey.value);
    if stateAccount.None? {
      return Success(arr);  // caught: "Transaction error"
    }
    var author := stateAccount.value;
    var i: int := author.tweetCount - 1;
    while i >= 0
      invariant -1 <= i < author.tweetCount
      invariant arr + NewestRun(w, p, userKey.value, id, author, i + 1)
        == NewestRun(w, p, userKey.value, id, author, author.tweetCount)
    {
      var tweetAccount := GetTweetAccount(w, p, userKey.value, i);
      if tweetAccount.None? {
        assert arr == arr + NewestRun(w, p, userKey.value, id, author, i + 1);
        return Success(arr);  // the throw leaves the loop and is caught
      }
      var card := Card(author, id, tweetAccount.value);
      assert arr + NewestRun(w, p, userKey.value, id, author, i + 1)
        == (arr + [card]) + NewestRun(w, p, userKey.value, id, author, i);
      arr := arr + [card];
      i := i - 1;
    }
    assert arr == arr + NewestRun(w, p, userKey.value, id, author, 0);
    return Success(arr);
  }

  /**
   * The profile page and the home feed agree on a user whose tweets all fetch: the
   * page lists exactly the entries buildTweetList collects for that user, in reverse
   * (newest index first).
   */
  lemma ProfileReversesFeedEntries(w: Web3, p: Program, owner: Key)
    requires GetStateAccount(w, p, owner).Some?
    requires forall i | 0 <= i < GetStateAccount(w, p, owner).value.tweetCount ::
      GetTweetAccount(w, p, owner, i).Some?
    ensures var posts := ProfilePosts(w, p, owner, w.toBase58(owner));
      var entries := Feed.AuthorEntries(w, p, owner);
      && |posts| == |entries|
      && forall j | 0 <= j < |posts| :: posts[j] == entries[|entries| - 1 - j]
  {
    var author := GetStateAccount(w, p, owner).value;
    var id := w.toBase58(owner);
    var n := author.tweetCount;
    var posts := ProfilePosts(w, p, owner, id);
    var slots := Feed.TweetSlots(w, p, owner, n);
    Feed.SomesAllPresent(slots);
    NewestRunStops(w, p, owner, id, author, n);
    forall j | 0 <= j < |posts|
      ensures posts[j] == Feed.AuthorEntries(w, p, owner)[n - 1 - j]
    {
      NewestRunAt(w, p, owner, id, author, n, j);
    }
  }

  // ---------------------------------------------------------------------------
  // getUsername
  // ---------------------------------------------------------------------------

  /** getUsername: the profile's username, or "" when the profile fetch throws. */
  function GetUsername(w: Web3, p: Program, wallet: Option<Key>, id: string): (r: Result<string>)
    ensures wallet.None? <==> r == Failure(WalletNotConnected)
    ensures wallet.Some? ==> (w.parseKey(id).None? <==> r == Failure(InvalidPublicKey))
    ensures wallet.Some? && w.parseKey(id).Some? ==>
      var a := w.findProgramAddress([Utf8("state"), w.parseKey(id).value], p.programId);
      r == Success(if a in p.accounts.states then p.accounts.states[a].username else "")
  {
    if wallet.None? then Failure(WalletNotConnected)
    else
      match w.parseKey(id)
      case None => Failure(InvalidPublicKey)
      case Some(userKey) =>
        Success(match GetStateAccount(w, p, userKey)
                case None => ""
                case Some(author) => author.username)
  }

  /**
   * The name shown on the page and the posts shown on it agree: every card of
   * getAllPost carries the name getUsername returns and the key `id`; when the
   * profile fetch throws, the name is "" and there are no cards.
   */
  lemma PostsCarryUsername(w: Web3, p: Program, wallet: Key, id: string)
    requires w.parseKey(id).Some?
    ensures var posts := ProfilePosts(w, p, w.parseKey(id).value, id);
      && (forall e | e in posts :: GetUsername(w, p, Some(wallet), id) == Success(e.authorName) && e.authorKey == id)
      && (GetStateAccount(w, p, w.parseKey(id).value).None? ==>
            posts == [] && GetUsername(w, p, Some(wallet), id) == Success(""))
  {
    var owner := w.parseKey(id).value;
    if GetStateAccount(w, p, owner).Some? {
      var author := GetStateAccount(w, p, owner).value;
      var posts := ProfilePosts(w, p, owner, id);
      forall e | e in posts
        ensures e.authorName == author.username && e.authorKey == id
      {
        var j :| 0 <= j < |posts| && posts[j] == e;
        NewestRunAt(w, p, owner, id, author, author.tweetCount, j);
      }
    }
  }

  // ---------------------------------------------------------------------------
  // isFollowing: linear scan with early return
  // ---------------------------------------------------------------------------

  /** Edge `i` of `owner` can be fetched and points at the key whose base58 text is `id`. */
  predicate EdgeMatches(w: Web3, p: Program, owner: Key, id: string, i: U64)
  {
    match GetFollowAccount(w, p, owner, i)
    case None => false
    case Some(edge) => w.toBase58(edge.follow) == id
  }

  /** The scan over edges i..m-1: true at the first match, false at the first failure. */
  function ScanEdges(w: Web3, p: Program, owner: Key, id: string, i: nat, m: nat): bool
    requires i <= m <= TWO_64
    decreases m - i
  {
    if i == m then false
    else
      match GetFollowAccount(w, p, owner, i)
      case None => false
      case Some(edge) => w.toBase58(edge.follow) == id || ScanEdges(w, p, owner, id, i + 1, m)
  }

  /** A match at k with every edge from i up to k fetched makes the scan succeed. */
  lemma {:induction false} ScanFindsMatch(w: Web3, p: Program, owner: Key, id: string, i: nat, m: nat, k: nat)
    requires i <= k < m <= TWO_64
    requires EdgeMatches(w, p, owner, id, k)
    requires forall j | i <= j < k :: GetFollowAccount(w, p, owner, j).Some?
    ensures ScanEdges(w, p, owner, id, i, m)
    decreases k - i
  {
    if i < k {
      assert GetFollowAccount(w, p, owner, i).Some?;
      ScanFindsMatch(w, p, owner, id, i + 1, m, k);
    }
  }

  /** A successful scan stops at a matching edge k, every edge before it fetched. */
  lemma {:induction false} ScanMatchWitness(w: Web3, p: Program, owner: Key, id: string, i: nat, m: nat)
      returns (k: nat)
    requires i <= m <= TWO_64
    requires ScanEdges(w, p, owner, id, i, m)
    ensures i <= k < m
    ensures EdgeMatches(w, p, owner, id, k)
    ensures forall j | i <= j < k :: GetFollowAccount(w, p, owner, j).Some?
    decreases m - i
  {
    var edge := GetFollowAccount(w, p, owner, i);
    assert edge.Some?;
    if w.toBase58(edge.value.follow) == id {
      k := i;
    } else {
      assert ScanEdges(w, p, owner, id, i + 1, m);
      k := ScanMatchWitness(w, p, owner, id, i + 1, m);
      assert forall j | i + 1 <= j < k :: GetFollowAccount(w, p, owner, j).Some?;
    }
  }

  /**
   * The scan succeeds exactly when some edge k in [i, m) matches and every edge from
   * i up to k can be fetched (a failed fetch before any match ends it with false).
   */
  lemma ScanEdgesSpec(w: Web3, p: Program, owner: Key, id: string, i: nat, m: nat)
    requires i <= m <= TWO_64
    ensures ScanEdges(w, p, owner, id, i, m) <==>
      exists k | i <= k < m ::
        EdgeMatches(w, p, owner, id, k) && forall j | i <= j < k :: GetFollowAccount(w, p, owner, j).Some?
  {
    if ScanEdges(w, p, owner, id, i, m) {
      var k := ScanMatchWitness(w, p, owner, id, i, m);
    } else {
      forall k | i <= k < m && EdgeMatches(w, p, owner, id, k)
        ensures !forall j | i <= j < k :: GetFollowAccount(w, p, owner, j).Some?
      {
        if forall j | i <= j < k :: GetFollowAccount(w, p, owner, j).Some? {
          ScanFindsMatch(w, p, owner, id, i, m, k);
        }
      }
    }
  }

  /**
   * isFollowing as written: the loop bound is the profile's `followAccount`
   * property, not followCount; with that property absent the answer is false.
   */
  function Following(w: Web3, p: Program, owner: Key, id: string): bool
  {
    match GetStateAccount(w, p, owner)
    case None => false
    case Some(author) =>
      match author.followAccount
      case None => false
      case Some(bound) => ScanEdges(w, p, owner, id, 0, bound)
  }

  /** isFollowing: the scan of the wallet's follow edges for the key `id`. */
  method IsFollowing(w: Web3, p: Program, wallet: Option<Key>, id: string) returns (r: Result<bool>)
    ensures wallet.None? ==> r == Failure(WalletNotConnected)
    ensures wallet.Some? ==> r == Success(Following(w, p, wallet.value, id))
  {
    if wallet.None? {
      return Failure(WalletNotConnected);
    }
    var publicKey := wallet.value;
    var stateAccount := GetStateAccount(w, p, publicKey);
    if stateAccount.None? || stateAccount.value.followAccount.None? {
      return Success(false);
    }
    var bound := stateAccount.value.followAccount.value;
    for i := 0 to bound
      invariant ScanEdges(w, p, publicKey, id, i, bound) == Following(w, p, publicKey, id)
    {
      var followAccount := GetFollowAccount(w, p, publicKey, i);
      if followAccount.None? {
        return Success(false);  // the throw is caught
      }
      if w.toBase58(followAccount.value.follow) == id {
        return Success(true);
      }
    }
    return Success(false);
  }

  /**
   * The outcome of isFollowing: true exactly when, within the first `followAccount`
   * edges, some edge points at `id` and no edge before it failed to fetch; false
   * whenever the profile or its `followAccount` property is missing.
   */
  lemma FollowingSpec(w: Web3, p: Program, owner: Key, id: string)
    ensures Following(w, p, owner, id) <==>
      && GetStateAccount(w, p, owner).Some?
      && GetStateAccount(w, p, owner).value.followAccount.Some?
      && exists k | 0 <= k < GetStateAccount(w, p, owner).value.followAccount.value ::
           EdgeMatches(w, p, owner, id, k) && forall j | 0 <= j < k :: GetFollowAccount(w, p, owner, j).Some?
  {
    var author := GetStateAccount(w, p, owner);
    if author.Some? && author.value.followAccount.Some? {
      ScanEdgesSpec(w, p, owner, id, 0, author.value.followAccount.value);
    }
  }

  // ---------------------------------------------------------------------------
  // createFollow and the follow button
  // ---------------------------------------------------------------------------

  /** A transaction the client submits: createFollow() with its accounts. */
  datatype CreateFollowIx = CreateFollowIx(state: Key, follow: Key, authority: Key, followKey: Key)

  /**
   * The createFollow request for the wallet `owner`, or None when the profile fetch
   * or the parse of `id` throws (both inside the try block).
   */
  function FollowInstruction(w: Web3, p: Program, owner: Key, id: string): Option<CreateFollowIx>
  {
    match GetStateAccount(w, p, owner)
    case None => None
    case Some(author) =>
      match w.parseKey(id)
      case None => None
      case Some(followKey) =>
        Some(CreateFollowIx(StatePda(w, p, owner), FollowPda(w, p, owner, author.followCount), owner, followKey))
  }

  /**
   * createFollow writes at index followCount: the request names the follow address
   * derived for that index, a seed list no already counted edge of the owner has,
   * and the key parsed from `id` as the target.
   */
  lemma NewFollowTargetsNextIndex(w: Web3, p: Program, owner: Key, id: string)
    ensures FollowInstruction(w, p, owner, id).None? <==>
      GetStateAccount(w, p, owner).None? || w.parseKey(id).None?
    ensures FollowInstruction(w, p, owner, id).Some? ==>
      var author := GetStateAccount(w, p, owner).value;
      var ix := FollowInstruction(w, p, owner, id).value;
      && ix.follow == w.findProgramAddress(FollowSeeds(owner, author.followCount), p.programId)
      && ix.state == w.findProgramAddress(StateSeeds(owner), p.programId)
      && ix.authority == owner
      && Some(ix.followKey) == w.parseKey(id)
      && forall i: U64 | i < author.followCount :: FollowSeeds(owner, i) != FollowSeeds(owner, author.followCount)
  {
    if FollowInstruction(w, p, owner, id).Some? {
      var author := GetStateAccount(w, p, owner).value;
      forall i: U64 | i < author.followCount
        ensures FollowSeeds(owner, i) != FollowSeeds(owner, author.followCount)
      {
        FollowSeedsInjective(owner, i, owner, author.followCount);
      }
    }
  }

  /**
   * showFollowButton, as the code has it (an "or", not the "and" of its comment):
   * the button is hidden exactly when a wallet is connected, `id` is that wallet's
   * own key and the wallet has a profile.
   */
  function ShowFollowButton(w: Web3, id: string, wallet: Option<Key>, hasAccount: bool): (show: bool)
    ensures !show <==> wallet.Some? && w.toBase58(wallet.value) == id && hasAccount
  {
    (wallet.None? || id != w.toBase58(wallet.value)) || !hasAccount
  }

  // ---------------------------------------------------------------------------
  // The component's state
  // ---------------------------------------------------------------------------

  class UserView {
    const id: string
    var tweetList: seq<TweetProps>
    var isFollow: bool
    var hasAccount: bool
    var username: string

    constructor (id: string)
      ensures this.id == id
      ensures tweetList == [] && !isFollow && !hasAccount && username == ""
    {
      this.id := id;
      tweetList := [];
      isFollow := false;
      hasAccount := false;
      username := "";
    }

    /**
     * initialSetup: sets the follow flag, the account flag, the post list and the
     * name in that order; an invalid `id` makes getAllPost throw, so the post list
     * and the name keep their old values.
     */
    method InitialSetup(w: Web3, p: Program, wallet: Option<Key>) returns (r: Result<()>)
      modifies this
      ensures wallet.None? ==>
        && r == Failure(WalletNotConnected)
        && isFollow == old(isFollow) && hasAccount == old(hasAccount)
        && tweetList == old(tweetList) && username == old(username)
      ensures wallet.Some? ==>
        && isFollow == Following(w, p, wallet.value, id)
        && hasAccount == GetHasAccount(w, p, wallet.value)
      ensures wallet.Some? && w.parseKey(id).None? ==>
        && r == Failure(InvalidPublicKey)
        && tweetList == old(tweetList) && username == old(username)
      ensures wallet.Some? && w.parseKey(id).Some? ==>
        && r == Success(())
        && tweetList == ProfilePosts(w, p, w.parseKey(id).value, id)
        && GetUsername(w, p, wallet, id) == Success(username)
    {
      if wallet.None? {
        return Failure(WalletNotConnected);
      }
      var following := IsFollowing(w, p, wallet, id);
      isFollow := following.value;
      hasAccount := GetHasAccount(w, p, wallet.value);
      var posts := GetAllPost(w, p, wallet, id);
      if posts.Failure? {
        return Failure(posts.error);
      }
      tweetList := posts.value;
      var name := GetUsername(w, p, wallet, id);
      username := name.value;
      return Success(());
    }

    /**
     * createFollow: submits the follow request; the flag becomes true only once the
     * submission is confirmed and is otherwise left as it was.
     */
    method CreateFollow(w: Web3, p: Program, wallet: Option<Key>, submit: CreateFollowIx -> bool)
      returns (r: Result<()>)
      modifies this`isFollow
      ensures wallet.None? ==> r == Failure(WalletNotConnected) && isFollow == old(isFollow)
      ensures wallet.Some? ==>
        var ix := FollowInstruction(w, p, wallet.value, id);
        && r == Success(())
        && isFollow == (if ix.Some? && submit(ix.value) then true else old(isFollow))
    {
      if wallet.None? {
        return Failure(WalletNotConnected);
      }
      var publicKey := wallet.value;
      var statePda := StatePda(w, p, publicKey);
      var stateAccount := GetStateAccount(w, p, publicKey);
      if stateAccount.None? {
        return Success(());
      }
      var followPda := FollowPda(w, p, publicKey, stateAccount.value.followCount);
      var followKey := w.parseKey(id);
      if followKey.None? {
        return Success(());
      }
      var confirmed := submit(CreateFollowIx(statePda, followPda, publicKey, followKey.value));
      if confirmed {
        isFollow := true;
      }
      return Success(());
    }
  }
}
