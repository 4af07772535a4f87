/**
 * Home-feed aggregation of the bwitter client (components/Feed.tsx).
 *
 * createHomepage scans the viewer's follow edges, collects the viewer's own tweets
 * and then those of every present followee with buildTweetList, and publishes the
 * collection sorted newest first. addTweet submits a tweet at the next free index
 * and prepends the confirmed tweet to the shown list.
 */
module Feed {
  import opened Util
  import opened Tweet

  // ---------------------------------------------------------------------------
  // Slots: a fetch per index, kept only where it succeeded
  // ---------------------------------------------------------------------------

  /** The values of the present slots, in slot order. */
  function Somes<T>(s: seq<Option<T>>): seq<T>
  {
    if s == [] then []
    else Somes(s[..|s| - 1]) + (if s[|s| - 1].Some? then [s[|s| - 1].value] else [])
  }

  /** The positions of the present slots, ascending. */
  function SomeIndices<T>(s: seq<Option<T>>): seq<nat>
  {
    if s == [] then []
    else SomeIndices(s[..|s| - 1]) + (if s[|s| - 1].Some? then [|s| - 1] else [])
  }

  /**
   * Somes keeps exactly the present slots: the j-th value comes from the j-th
   * present position, positions ascend, and no present slot is dropped.
   */
  lemma {:induction false} SomesIndexed<T>(s: seq<Option<T>>)
    ensures |Somes(s)| == |SomeIndices(s)| <= |s|
    ensures forall j | 0 <= j < |SomeIndices(s)| ::
      SomeIndices(s)[j] < |s| && s[SomeIndices(s)[j]] == Some(Somes(s)[j])
    ensures forall j, k | 0 <= j < k < |SomeIndices(s)| :: SomeIndices(s)[j] < SomeIndices(s)[k]
    ensures forall i | 0 <= i < |s| && s[i].Some? :: i in SomeIndices(s)
  {
    if s != [] {
      var init := s[..|s| - 1];
      SomesIndexed(init);
      forall j | 0 <= j < |SomeIndices(init)|
        ensures SomeIndices(s)[j] == SomeIndices(init)[j] && Somes(s)[j] == Somes(init)[j]
        ensures s[SomeIndices(init)[j]] == init[SomeIndices(init)[j]]
      {
      }
    }
  }

  /** With every slot present, Somes keeps every value, in slot order. */
  lemma {:induction false} SomesAllPresent<T>(s: seq<Option<T>>)
    requires forall i | 0 <= i < |s| :: s[i].Some?
    ensures |Somes(s)| == |s|
    ensures forall i | 0 <= i < |s| :: Somes(s)[i] == s[i].value
  {
    if s != [] {
      SomesAllPresent(s[..|s| - 1]);
    }
  }

  // ---------------------------------------------------------------------------
  // One author's tweets (buildTweetList)
  // ---------------------------------------------------------------------------

  /** The tweet fetches for indices 0..n-1 of `owner`, None where the fetch throws. */
  function TweetSlots(w: Web3, p: Program, owner: Key, n: nat): seq<Option<TweetAccount>>
    requires n <= TWO_64
  {
    seq(n, i requires 0 <= i < n => GetTweetAccount(w, p, owner, i))
  }

  function Cards(author: StateAccount, authorKey: string, ts: seq<TweetAccount>): seq<TweetProps>
  {
    seq(|ts|, j requires 0 <= j < |ts| => Card(author, authorKey, ts[j]))
  }

  /** What buildTweetList appends for `owner`. */
  function AuthorEntries(w: Web3, p: Program, owner: Key): seq<TweetProps>
  {
    match GetStateAccount(w, p, owner)
    case None => []
    case Some(author) =>
      Cards(author, w.toBase58(owner), Somes(TweetSlots(w, p, owner, author.tweetCount)))
  }

  /**
   * An author with no fetchable profile contributes nothing. Otherwise the entries
   * come from an ascending run of indices below tweetCount, one per index whose
   * tweet fetch succeeds (a failed fetch is skipped, the scan goes on), and each
   * carries the author's username and base58 key.
   */
  lemma AuthorEntriesSpec(w: Web3, p: Program, owner: Key)
    ensures GetStateAccount(w, p, owner).None? ==> AuthorEntries(w, p, owner) == []
    ensures GetStateAccount(w, p, owner).Some? ==>
      var author := GetStateAccount(w, p, owner).value;
      var entries := AuthorEntries(w, p, owner);
      var idx := SomeIndices(TweetSlots(w, p, owner, author.tweetCount));
      && |entries| == |idx| <= author.tweetCount
      && (forall j, k | 0 <= j < k < |idx| :: idx[j] < idx[k])
      && (forall j | 0 <= j < |idx| ::
            && idx[j] < author.tweetCount
            && GetTweetAccount(w, p, owner, idx[j]).Some?
            && entries[j] == Card(author, w.toBase58(owner), GetTweetAccount(w, p, owner, idx[j]).value))
      && (forall i | 0 <= i < author.tweetCount && GetTweetAccount(w, p, owner, i).Some? :: i in idx)
      && (forall e | e in entries :: e.authorName == author.username && e.authorKey == w.toBase58(owner))
  {
    if GetStateAccount(w, p, owner).Some? {
      var author := GetStateAccount(w, p, owner).value;
      SomesIndexed(TweetSlots(w, p, owner, author.tweetCount));
    }
  }

  lemma TweetSlotStep(w: Web3, p: Program, owner: Key, author: StateAccount, authorKey: string, i: nat)
    requires i < author.tweetCount
    ensures Cards(author, authorKey, Somes(TweetSlots(w, p, owner, i + 1)))
      == Cards(author, authorKey, Somes(TweetSlots(w, p, owner, i)))
         + match GetTweetAccount(w, p, owner, i)
           case None => []
           case Some(t) => [Card(author, authorKey, t)]
  {
    var slots := TweetSlots(w, p, owner, i + 1);
    assert slots[..i] == TweetSlots(w, p, owner, i);
    var before := Somes(TweetSlots(w, p, owner, i));
    match GetTweetAccount(w, p, owner, i)
    case None =>
    case Some(t) =>
      assert Cards(author, authorKey, before + [t]) == Cards(author, authorKey, before) + [Card(author, authorKey, t)];
  }

  // ---------------------------------------------------------------------------
  // The viewer's follow edges (createHomepage, first half)
  // ---------------------------------------------------------------------------

  /** The follow-edge addresses of `owner` for indices 0..n-1. */
  function FollowPdas(w: Web3, p: Program, owner: Key, n: nat): seq<Key>
    requires n <= TWO_64
  {
    seq(n, i requires 0 <= i < n => FollowPda(w, p, owner, i))
  }

  /** followAccount.fetchMultiple: one slot per address, None where nothing decodes. */
  function FetchMultiple(p: Program, addrs: seq<Key>): seq<Option<FollowAccount>>
  {
    seq(|addrs|, i requires 0 <= i < |addrs| => Find(p.accounts.follows, addrs[i]))
  }

  function Targets(edges: seq<FollowAccount>): seq<Key>
  {
    seq(|edges|, j requires 0 <= j < |edges| => edges[j].follow)
  }

  /** The followees createHomepage visits: targets of the present edges, in edge order. */
  function Followees(w: Web3, p: Program, viewer: Key, author: StateAccount): seq<Key>
  {
    Targets(Somes(FetchMultiple(p, FollowPdas(w, p, viewer, author.followCount))))
  }

  /**
   * The followees are the targets of an ascending run of edge indices below
   * followCount, one per index whose edge is present; absent edges are skipped and
   * no present edge is dropped.
   */
  lemma FolloweesSpec(w: Web3, p: Program, viewer: Key, author: StateAccount)
    ensures
      var fs := Followees(w, p, viewer, author);
      var idx := SomeIndices(FetchMultiple(p, FollowPdas(w, p, viewer, author.followCount)));
      && |fs| == |idx| <= author.followCount
      && (forall j, k | 0 <= j < k < |idx| :: idx[j] < idx[k])
      && (forall j | 0 <= j < |idx| ::
            idx[j] < author.followCount && GetFollowAccount(w, p, viewer, idx[j]) == Some(FollowAccount(fs[j])))
      && (forall i | 0 <= i < author.followCount && GetFollowAccount(w, p, viewer, i).Some? :: i in idx)
  {
    var infos := FetchMultiple(p, FollowPdas(w, p, viewer, author.followCount));
    SomesIndexed(infos);
    assert forall i | 0 <= i < author.followCount :: infos[i] == GetFollowAccount(w, p, viewer, i);
  }

  lemma FolloweeStep(infos: seq<Option<FollowAccount>>, k: nat)
    requires k < |infos|
    ensures Targets(Somes(infos[..k + 1]))
      == Targets(Somes(infos[..k])) + if infos[k].Some? then [infos[k].value.follow] else []
  {
    assert infos[..k + 1][..k] == infos[..k];
    var before := Somes(infos[..k]);
    if infos[k].Some? {
      assert Targets(before + [infos[k].value]) == Targets(before) + [infos[k].value.follow];
    }
  }

  // ---------------------------------------------------------------------------
  // Collection across authors and the published feed
  // ---------------------------------------------------------------------------

  /** What successive buildTweetList calls append for `owners`, in order. */
  function EntriesOf(w: Web3, p: Program, owners: seq<Key>): seq<TweetProps>
  {
    if owners == [] then [] else AuthorEntries(w, p, owners[0]) + EntriesOf(w, p, owners[1..])
  }

  lemma {:induction false} EntriesOfAppend(w: Web3, p: Program, xs: seq<Key>, ys: seq<Key>)
    ensures EntriesOf(w, p, xs + ys) == EntriesOf(w, p, xs) + EntriesOf(w, p, ys)
  {
    if xs == [] {
      assert xs + ys == ys;
    } else {
      assert (xs + ys)[1..] == xs[1..] + ys;
      EntriesOfAppend(w, p, xs[1..], ys);
    }
  }

  /**
   * An author whose profile fetch fails contributes nothing, wherever it stands among
   * the authors, and the entries of every other author are unaffected.
   */
  lemma MissingProfileSkipped(w: Web3, p: Program, before: seq<Key>, f: Key, after: seq<Key>)
    requires GetStateAccount(w, p, f).None?
    ensures EntriesOf(w, p, before + [f] + after) == EntriesOf(w, p, before) + EntriesOf(w, p, after)
  {
    var withF := before + [f];
    EntriesOfAppend(w, p, withF, after);
    EntriesOfAppend(w, p, before, [f]);
    EntriesOfSingle(w, p, f);
  }

  lemma EntriesOfSingle(w: Web3, p: Program, f: Key)
    ensures EntriesOf(w, p, [f]) == AuthorEntries(w, p, f)
  {
  }

  /** One step of createHomepage's loop over the fetched follow edges. */
  lemma HomeStep(w: Web3, p: Program, viewer: Key, infos: seq<Option<FollowAccount>>, k: nat)
    requires k < |infos|
    ensures EntriesOf(w, p, [viewer] + Targets(Somes(infos[..k + 1])))
      == EntriesOf(w, p, [viewer] + Targets(Somes(infos[..k])))
         + if infos[k].Some? then AuthorEntries(w, p, infos[k].value.follow) else []
  {
    var visited := [viewer] + Targets(Somes(infos[..k]));
    FolloweeStep(infos, k);
    if infos[k].Some? {
      var followee := infos[k].value.follow;
      assert [viewer] + Targets(Somes(infos[..k + 1])) == visited + [followee];
      EntriesOfAppend(w, p, visited, [followee]);
      EntriesOfSingle(w, p, followee);
    } else {
      assert [viewer] + Targets(Somes(infos[..k + 1])) == visited;
    }
  }

  /** Everything createHomepage collects before sorting: own tweets, then each followee's. */
  function HomeEntries(w: Web3, p: Program, viewer: Key, author: StateAccount): seq<TweetProps>
  {
    EntriesOf(w, p, [viewer] + Followees(w, p, viewer, author))
  }

  /** The list createHomepage publishes, or None when the viewer's profile fetch throws. */
  function HomeFeed(w: Web3, p: Program, viewer: Key): Option<seq<TweetProps>>
  {
    match GetStateAccount(w, p, viewer)
    case None => None
    case Some(author) => Some(SortNewestFirst(HomeEntries(w, p, viewer, author)))
  }

  /**
   * The published feed: the viewer's own entries come first in the collection, the
   * feed is a permutation of the collection sorted newest first, and entries with
   * equal timestamps keep their collection order.
   */
  lemma HomeFeedSpec(w: Web3, p: Program, viewer: Key)
    ensures GetStateAccount(w, p, viewer).None? <==> HomeFeed(w, p, viewer).None?
    ensures GetStateAccount(w, p, viewer).Some? ==>
      var author := GetStateAccount(w, p, viewer).value;
      var entries := HomeEntries(w, p, viewer, author);
      var feed := HomeFeed(w, p, viewer).value;
      && entries == AuthorEntries(w, p, viewer) + EntriesOf(w, p, Followees(w, p, viewer, author))
      && NewestFirst(feed)
      && multiset(feed) == multiset(entries)
      && forall t :: WithTimestamp(feed, t) == WithTimestamp(entries, t)
  {
    if GetStateAccount(w, p, viewer).Some? {
      var author := GetStateAccount(w, p, viewer).value;
      var fs := Followees(w, p, viewer, author);
      EntriesOfAppend(w, p, [viewer], fs);
      assert EntriesOf(w, p, [viewer]) == AuthorEntries(w, p, viewer) + EntriesOf(w, p, []);
      forall t {
        SortNewestFirstStable(HomeEntries(w, p, viewer, author), t);
      }
    }
  }

  // ---------------------------------------------------------------------------
  // The published order: a stable sort, newest timestamp first
  // ---------------------------------------------------------------------------

  predicate NewestFirst(s: seq<TweetProps>)
  {
    forall i, j | 0 <= i < j < |s| :: s[i].timestamp >= s[j].timestamp
  }

  /** Places `x` before the first entry that is not newer than it. */
  function InsertNewestFirst(x: TweetProps, s: seq<TweetProps>): (r: seq<TweetProps>)
    requires NewestFirst(s)
    ensures |r| == |s| + 1 && (r[0] == x || (s != [] && r[0] == s[0]))
    ensures NewestFirst(r)
    ensures multiset(r) == multiset(s) + multiset{x}
  {
    if s == [] || s[0].timestamp <= x.timestamp then [x] + s
    else
      var rest := InsertNewestFirst(x, s[1..]);
      assert rest[0].timestamp <= s[0].timestamp;
      assert s == [s[0]] + s[1..];
      [s[0]] + rest
  }

  function SortNewestFirst(s: seq<TweetProps>): (r: seq<TweetProps>)
    ensures NewestFirst(r)
    ensures multiset(r) == multiset(s)
  {
    if s == [] then []
    else
      assert s == [s[0]] + s[1..];
      InsertNewestFirst(s[0], SortNewestFirst(s[1..]))
  }

  /** The entries of `s` stamped `t`, in their order in `s`. */
  function WithTimestamp(s: seq<TweetProps>, t: int): seq<TweetProps>
  {
    if s == [] then [] else (if s[0].timestamp == t then [s[0]] else []) + WithTimestamp(s[1..], t)
  }

  lemma {:induction false} InsertStable(x: TweetProps, s: seq<TweetProps>, t: int)
    requires NewestFirst(s)
    ensures WithTimestamp(InsertNewestFirst(x, s), t) == WithTimestamp([x] + s, t)
  {
    if !(s == [] || s[0].timestamp <= x.timestamp) {
      var rest := InsertNewestFirst(x, s[1..]);
      InsertStable(x, s[1..], t);
      assert ([s[0]] + rest)[1..] == rest;
      assert ([x] + s[1..])[1..] == s[1..];
      assert ([x] + s)[1..] == s;
    }
  }

  /** The sort is stable: for every timestamp, the entries so stamped keep their order. */
  lemma {:induction false} SortNewestFirstStable(s: seq<TweetProps>, t: int)
    ensures WithTimestamp(SortNewestFirst(s), t) == WithTimestamp(s, t)
  {
    if s != [] {
      var sorted := SortNewestFirst(s[1..]);
      SortNewestFirstStable(s[1..], t);
      InsertStable(s[0], sorted, t);
      assert ([s[0]] + sorted)[1..] == sorted;
    }
  }

  // ---------------------------------------------------------------------------
  // The component's state
  // ---------------------------------------------------------------------------

  /** The caller-supplied array buildTweetList pushes into. */
  class TweetBuffer {
    var items: seq<TweetProps>

    constructor ()
      ensures items == []
    {
      items := [];
    }

    method Push(t: TweetProps)
      modifies this
      ensures items == old(items) + [t]
    {
      items := items + [t];
    }
  }

  /**
   * buildTweetList: appends `publicKey`'s tweets in ascending index order, skipping
   * every tweet whose fetch throws; appends nothing when the profile fetch throws.
   */
  method BuildTweetList(w: Web3, p: Program, publicKey: Key, tweetAccounts: TweetBuffer)
    modifies tweetAccounts
    ensures tweetAccounts.items == old(tweetAccounts.items) + AuthorEntries(w, p, publicKey)
  {
    var stateAccount := GetStateAccount(w, p, publicKey);
    if stateAccount.None? {
      return;  // "error getting the user state info"
    }
    var author := stateAccount.value;
    var authorKey := w.toBase58(publicKey);
    for i := 0 to author.tweetCount
      invariant tweetAccounts.items
        == old(tweetAccounts.items) + Cards(author, authorKey, Somes(TweetSlots(w, p, publicKey, i)))
    {
      TweetSlotStep(w, p, publicKey, author, authorKey, i);
      var tweetAccount := GetTweetAccount(w, p, publicKey, i);
      if tweetAccount.Some? {
        tweetAccounts.Push(Card(author, authorKey, tweetAccount.value));
      }
    }
  }

  /** A transaction the client submits: createTweet(text) with its accounts. */
  datatype CreateTweetIx = CreateTweetIx(text: string, state: Key, tweet: Key, authority: Key)

  /** The createTweet request addTweet builds, or None when the profile fetch throws. */
  function TweetInstruction(w: Web3, p: Program, owner: Key, text: string): Option<CreateTweetIx>
  {
    match GetStateAccount(w, p, owner)
    case None => None
    case Some(author) =>
      Some(CreateTweetIx(text, StatePda(w, p, owner), TweetPda(w, p, owner, author.tweetCount), owner))
  }

  /**
   * addTweet writes at index tweetCount of the owner's profile: the request names the
   * owner's profile address and the tweet address derived for that index, a seed list
   * that no already counted tweet of the owner has.
   */
  lemma NewTweetTargetsNextIndex(w: Web3, p: Program, owner: Key, text: string)
    ensures TweetInstruction(w, p, owner, text).None? <==> GetStateAccount(w, p, owner).None?
    ensures GetStateAccount(w, p, owner).Some? ==>
      var author := GetStateAccount(w, p, owner).value;
      var ix := TweetInstruction(w, p, owner, text).value;
      && ix.tweet == w.findProgramAddress(TweetSeeds(owner, author.tweetCount), p.programId)
      && ix.state == w.findProgramAddress(StateSeeds(owner), p.programId)
      && ix.authority == owner
      && ix.text == text
      && forall i: U64 | i < author.tweetCount :: TweetSeeds(owner, i) != TweetSeeds(owner, author.tweetCount)
  {
    if GetStateAccount(w, p, owner).Some? {
      var author := GetStateAccount(w, p, owner).value;
      forall i: U64 | i < author.tweetCount
        ensures TweetSeeds(owner, i) != TweetSeeds(owner, author.tweetCount)
      {
        TweetSeedsInjective(owner, i, owner, author.tweetCount);
      }
    }
  }

  /**
   * The card addTweet prepends: the tweet the ledger holds at the requested address
   * once the submission is confirmed. None when the profile fetch, the submission or
   * the read-back throws.
   */
  function PostedCard(w: Web3, p: Program, owner: Key, text: string, submit: CreateTweetIx -> Option<Ledger>)
    : Option<TweetProps>
  {
    match TweetInstruction(w, p, owner, text)
    case None => None
    case Some(ix) =>
      match submit(ix)
      case None => None
      case Some(after) =>
        match Find(after.tweets, ix.tweet)
        case None => None
        case Some(t) => Some(Card(GetStateAccount(w, p, owner).value, w.toBase58(owner), t))
  }

  class FeedView {
    var input: string
    var tweetList: seq<TweetProps>

    constructor ()
      ensures input == "" && tweetList == []
    {
      input := "";
      tweetList := [];
    }

    /** The text field's change handler. */
    method SetInput(text: string)
      modifies this`input
      ensures input == text
    {
      input := text;
    }

    /**
     * createHomepage: publishes the viewer's home feed; when the viewer's profile
     * fetch throws, the error is caught and the shown list stays as it was.
     */
    method CreateHomepage(w: Web3, p: Program, wallet: Option<Key>) returns (r: Result<()>)
      modifies this`tweetList
      ensures wallet.None? ==> r == Failure(WalletNotConnected) && tweetList == old(tweetList)
      ensures wallet.Some? ==>
        && r == Success(())
        && tweetList == (if HomeFeed(w, p, wallet.value).Some? then HomeFeed(w, p, wallet.value).value
                         else old(tweetList))
    {
      if wallet.None? {
        return Failure(WalletNotConnected);
      }
      var publicKey := wallet.value;
      var stateAccount := GetStateAccount(w, p, publicKey);
      if stateAccount.None? {
        return Success(());  // caught: "Transaction error"
      }
      var author := stateAccount.value;
      var followAccounts: seq<Key> := [];
      for i := 0 to author.followCount
        invariant followAccounts == FollowPdas(w, p, publicKey, i)
      {
        followAccounts := followAccounts + [FollowPda(w, p, publicKey, i)];
      }
      var followInfos := FetchMultiple(p, followAccounts);
      var tweetAccounts := new TweetBuffer();
      BuildTweetList(w, p, publicKey, tweetAccounts);
      assert [publicKey] + Targets(Somes(followInfos[..0])) == [publicKey];
      EntriesOfSingle(w, p, publicKey);
      for k := 0 to |followInfos|
        invariant tweetAccounts.items == EntriesOf(w, p, [publicKey] + Targets(Somes(followInfos[..k])))
      {
        HomeStep(w, p, publicKey, followInfos, k);
        if followInfos[k].Some? {  // an absent edge slot is skipped
          BuildTweetList(w, p, followInfos[k].value.follow, tweetAccounts);
        }
      }
      assert followInfos[..|followInfos|] == followInfos;
      tweetList := SortNewestFirst(tweetAccounts.items);
      return Success(());
    }

    /**
     * initialSetup: starts createHomepage without awaiting it, so a rejection from a
     * missing wallet goes unobserved; the shown list ends as createHomepage leaves it.
     */
    method InitialSetup(w: Web3, p: Program, wallet: Option<Key>)
      modifies this`tweetList
      ensures tweetList == (if wallet.Some? && HomeFeed(w, p, wallet.value).Some?
                            then HomeFeed(w, p, wallet.value).value else old(tweetList))
    {
      var _ := CreateHomepage(w, p, wallet);
    }

    /**
     * addTweet: submits the input text as the owner's tweet number tweetCount; once
     * confirmed and read back, the new card goes in front of the shown list and the
     * input is cleared. Any thrown error is caught and leaves both untouched.
     */
    method AddTweet(w: Web3, p: Program, wallet: Option<Key>, submit: CreateTweetIx -> Option<Ledger>)
      returns (r: Result<()>)
      modifies this
      ensures wallet.None? ==>
        r == Failure(WalletNotConnected) && input == old(input) && tweetList == old(tweetList)
      ensures wallet.Some? ==>
        var posted := PostedCard(w, p, wallet.value, old(input), submit);
        && r == Success(())
        && tweetList == (if posted.Some? then [posted.value] + old(tweetList) else old(tweetList))
        && input == (if posted.Some? then "" else old(input))
    {
      if wallet.None? {
        return Failure(WalletNotConnected);
      }
      var publicKey := wallet.value;
      var statePda := StatePda(w, p, publicKey);
      var stateAccount := GetStateAccount(w, p, publicKey);
      if stateAccount.None? {
        return Success(());
      }
      var tweetPda := TweetPda(w, p, publicKey, stateAccount.value.tweetCount);
      var text := input;
      var confirmed := submit(CreateTweetIx(text, statePda, tweetPda, publicKey));
      if confirmed.None? {
        return Success(());
      }
      var tweetAccount := Find(confirmed.value.tweets, tweetPda);
      if tweetAccount.None? {
        return Success(());
      }
      input := "";
      tweetList := [Card(stateAccount.value, w.toBase58(publicKey), tweetAccount.value)] + tweetList;
      return Success(());
    }
  }
}
