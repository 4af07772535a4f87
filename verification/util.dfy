/**
 * Record addressing and account lookups of the bwitter client (components/util.ts).
 *
 * Every record lives at a program-derived address computed from a seed list:
 *   profile     ["state",  owner]
 *   tweet       ["tweet",  owner, be8(i)]
 *   follow edge ["follow", owner, be8(i)]
 * where be8(i) is the index as exactly eight big-endian bytes. The hash and bump
 * search of findProgramAddress, the base58 text form of keys and the ledger itself
 * are collaborators the client cannot see; they enter the model as values.
 */
module Util {

  newtype Byte = b: int | 0 <= b < 256

  /** A public key (wallet, program id or derived address) as its raw bytes. */
  type Key = seq<Byte>

  /** The seed list handed to findProgramAddress. */
  type Seeds = seq<seq<Byte>>

  const TWO_64: nat := 0x1_0000_0000_0000_0000

  /** An on-chain u64 counter or index. */
  type U64 = n: nat | n < TWO_64

  datatype Option<T> = None | Some(value: T)

  /** The exceptions a client operation lets escape to its caller. */
  datatype Error =
    | WalletNotConnected  // thrown when no wallet is connected, before any lookup
    | InvalidPublicKey    // the page's key text does not parse, outside a try block

  datatype Result<T> = Success(value: T) | Failure(error: Error)

  /**
   * The decoded profile record. `followAccount` is the property isFollowing reads
   * (components/User.tsx:99-100); the account layout has no field of that name, so a
   * decoded profile normally holds None there.
   */
  datatype StateAccount = StateAccount(
    username: string,
    tweetCount: U64,
    followCount: U64,
    followAccount: Option<U64>)

  datatype TweetAccount = TweetAccount(text: string, timestamp: int)

  datatype FollowAccount = FollowAccount(follow: Key)

  /**
   * The ledger as the client sees it: for each record kind, the map from address to
   * the decoded record. A missing address stands both for "no account" and for "the
   * bytes there do not decode as this kind".
   */
  datatype Ledger = Ledger(
    states: map<Key, StateAccount>,
    tweets: map<Key, TweetAccount>,
    follows: map<Key, FollowAccount>)

  /** The Anchor program handle: its id and the ledger its connection reads. */
  datatype Program = Program(programId: Key, accounts: Ledger)

  /**
   * Foreign calls into @solana/web3.js: the address half of findProgramAddress,
   * PublicKey.toBase58 and the PublicKey constructor from a base58 string (None when
   * it throws).
   */
  datatype Web3 = Web3(
    findProgramAddress: (Seeds, Key) -> Key,
    toBase58: Key -> string,
    parseKey: string -> Option<Key>)

  function Find<V>(m: map<Key, V>, k: Key): Option<V>
  {
    if k in m then Some(m[k]) else None
  }

  // ---------------------------------------------------------------------------
  // Fixed-width big-endian integers, most significant byte first
  // ---------------------------------------------------------------------------

  function Pow256(k: nat): (r: nat)
    ensures r > 0
  {
    if k == 0 then 1 else 256 * Pow256(k - 1)
  }

  lemma Pow256Eight()
    ensures Pow256(8) == TWO_64
  {
  }

  /** `n` written as exactly `width` bytes, most significant byte first. */
  function BigEndian(n: nat, width: nat): (b: seq<Byte>)
    requires n < Pow256(width)
    ensures |b| == width
    decreases width
  {
    if width == 0 then [] else BigEndian(n / 256, width - 1) + [(n % 256) as Byte]
  }

  /** The value of a big-endian byte string. */
  function FromBigEndian(b: seq<Byte>): (n: nat)
    ensures n < Pow256(|b|)
  {
    if b == [] then 0 else FromBigEndian(b[..|b| - 1]) * 256 + b[|b| - 1] as int
  }

  lemma {:induction false} BigEndianRoundTrip(n: nat, width: nat)
    requires n < Pow256(width)
    ensures FromBigEndian(BigEndian(n, width)) == n
    decreases width
  {
    if width > 0 {
      var b := BigEndian(n, width);
      assert b[..width - 1] == BigEndian(n / 256, width - 1);
      BigEndianRoundTrip(n / 256, width - 1);
    }
  }

  lemma {:induction false} FromBigEndianRoundTrip(b: seq<Byte>)
    ensures BigEndian(FromBigEndian(b), |b|) == b
  {
    if b != [] {
      var init := b[..|b| - 1];
      FromBigEndianRoundTrip(init);
      assert init + [b[|b| - 1]] == b;
    }
  }

  /**
   * The 8-byte big-endian index seed of getTweetPDA and getFollowPDA. Written as a
   * comprehension so that a proof about lookups expands the bytes of an index only
   * when it inspects them.
   */
  function Be8(n: U64): (b: seq<Byte>)
    ensures |b| == 8
  {
    Pow256Eight();
    seq(8, i requires 0 <= i < 8 => BigEndian(n, 8)[i])
  }

  lemma Be8RoundTrip(n: U64)
    ensures FromBigEndian(Be8(n)) == n
  {
    Pow256Eight();
    assert Be8(n) == BigEndian(n, 8);
    BigEndianRoundTrip(n, 8);
  }

  lemma Be8Injective(i: U64, j: U64)
    ensures Be8(i) == Be8(j) <==> i == j
  {
    Be8RoundTrip(i);
    Be8RoundTrip(j);
  }

  // ---------------------------------------------------------------------------
  // Seeds and program-derived addresses
  // ---------------------------------------------------------------------------

  /** utf8.encode on the ASCII tags the client uses. */
  function Utf8(s: string): (b: seq<Byte>)
    requires forall i | 0 <= i < |s| :: s[i] as int < 128
  {
    seq(|s|, i requires 0 <= i < |s| => s[i] as int as Byte)
  }

  function StateSeeds(owner: Key): Seeds
  {
    [Utf8("state"), owner]
  }

  function TweetSeeds(owner: Key, index: U64): Seeds
  {
    [Utf8("tweet"), owner, Be8(index)]
  }

  function FollowSeeds(owner: Key, index: U64): Seeds
  {
    [Utf8("follow"), owner, Be8(index)]
  }

  /** Two tweet seed lists coincide exactly when owner and index do. */
  lemma TweetSeedsInjective(o1: Key, i1: U64, o2: Key, i2: U64)
    ensures TweetSeeds(o1, i1) == TweetSeeds(o2, i2) <==> o1 == o2 && i1 == i2
  {
    if TweetSeeds(o1, i1) == TweetSeeds(o2, i2) {
      assert TweetSeeds(o1, i1)[2] == Be8(i1);
      Be8Injective(i1, i2);
    }
  }

  /** Two follow seed lists coincide exactly when owner and index do. */
  lemma FollowSeedsInjective(o1: Key, i1: U64, o2: Key, i2: U64)
    ensures FollowSeeds(o1, i1) == FollowSeeds(o2, i2) <==> o1 == o2 && i1 == i2
  {
    if FollowSeeds(o1, i1) == FollowSeeds(o2, i2) {
      assert FollowSeeds(o1, i1)[2] == Be8(i1);
      Be8Injective(i1, i2);
    }
  }

  /** Seeds of different record kinds never coincide. */
  lemma SeedKindsDisjoint(o1: Key, o2: Key, i: U64, j: U64)
    ensures StateSeeds(o1) == StateSeeds(o2) <==> o1 == o2
    ensures StateSeeds(o1) != TweetSeeds(o2, i)
    ensures StateSeeds(o1) != FollowSeeds(o2, j)
    ensures TweetSeeds(o1, i) != FollowSeeds(o2, j)
  {
    assert |TweetSeeds(o1, i)[0]| == 5;
    assert |FollowSeeds(o2, j)[0]| == 6;
  }

  function StatePda(w: Web3, p: Program, owner: Key): Key
  {
    w.findProgramAddress(StateSeeds(owner), p.programId)
  }

  function TweetPda(w: Web3, p: Program, owner: Key, index: U64): Key
  {
    w.findProgramAddress(TweetSeeds(owner, index), p.programId)
  }

  function FollowPda(w: Web3, p: Program, owner: Key, index: U64): Key
  {
    w.findProgramAddress(FollowSeeds(owner, index), p.programId)
  }

  // ---------------------------------------------------------------------------
  // Account lookups (program.account.<kind>.fetch); None where fetch throws
  // ---------------------------------------------------------------------------

  function GetStateAccount(w: Web3, p: Program, owner: Key): (r: Option<StateAccount>)
    ensures var a := w.findProgramAddress([Utf8("state"), owner], p.programId);
      r == if a in p.accounts.states then Some(p.accounts.states[a]) else None
  {
    Find(p.accounts.states, StatePda(w, p, owner))
  }

  function GetTweetAccount(w: Web3, p: Program, owner: Key, index: U64): (r: Option<TweetAccount>)
    ensures var a := w.findProgramAddress([Utf8("tweet"), owner, Be8(index)], p.programId);
      r == if a in p.accounts.tweets then Some(p.accounts.tweets[a]) else None
  {
    Find(p.accounts.tweets, TweetPda(w, p, owner, index))
  }

  function GetFollowAccount(w: Web3, p: Program, owner: Key, index: U64): (r: Option<FollowAccount>)
    ensures var a := w.findProgramAddress([Utf8("follow"), owner, Be8(index)], p.programId);
      r == if a in p.accounts.follows then Some(p.accounts.follows[a]) else None
  {
    Find(p.accounts.follows, FollowPda(w, p, owner, index))
  }

  /** getHasAccount: true exactly when the wallet's profile can be fetched. */
  function GetHasAccount(w: Web3, p: Program, wallet: Key): (r: bool)
    ensures r <==> w.findProgramAddress([Utf8("state"), wallet], p.programId) in p.accounts.states
  {
    GetStateAccount(w, p, wallet).Some?
  }
}
