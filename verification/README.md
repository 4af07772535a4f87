# bwitter client core in Dafny

bwitter is a Twitter-like client for a Solana program. Every record lives at a
program-derived address (PDA) computed from a seed list:

- a profile (`stateAccount`: username, tweetCount, followCount) at `["state", owner]`;
- tweet number `i` of an owner (`tweetAccount`: text, timestamp) at `["tweet", owner, be8(i)]`;
- follow edge number `i` (`followAccount`: the followed key) at `["follow", owner, be8(i)]`.

Here `be8(i)` is the index written as exactly eight big-endian bytes.

This project models the client's record addressing and lookups (`components/util.ts`) and
the two pages built on them:

- The home feed (`components/Feed.tsx`) collects the viewer's own tweets, then those of
  every followee whose edge record is present. Within one author, tweets are collected in
  ascending index order, and a tweet that cannot be fetched is skipped. A followee whose
  profile cannot be fetched contributes nothing. The result is sorted newest first by a
  stable sort.
- The profile page (`components/User.tsx`) lists one user's tweets from the newest index
  down. It shows that user's name, decides whether the connected wallet follows them, and
  decides whether to show the follow button.
- Posting a tweet and following a user submit an instruction at the next free index of
  the owner's counter.

## Layout

- `util.dfy`, module `Util`:
  - bytes, keys and the fixed-width big-endian encoding, with its round trips;
  - seed lists and the injectivity of the seeds;
  - PDAs and the three account lookups;
  - `GetHasAccount`.

  The ledger is a value `Ledger`: three maps from address to decoded record. A missing
  address stands for "no account" and also for "bytes that do not decode as this kind".
  `findProgramAddress`, `PublicKey.toBase58` and `new PublicKey(string)` are the
  arrow-typed fields of a `Web3` value. They are parameters of every operation, and the
  model assumes nothing about them.
- `tweet.dfy`, module `Tweet`: the `TweetProps` card and the object literal built from
  one tweet.
- `feed.dfy`, module `Feed`:
  - the collection functions (`AuthorEntries`, `Followees`, `EntriesOf`, `HomeFeed`);
  - the stable newest-first sort;
  - the `TweetBuffer` class, the array that `buildTweetList` pushes into;
  - the `FeedView` class, the component state `input` and `tweetList`, with
    `CreateHomepage`, `InitialSetup` and `AddTweet`.
- `user.dfy`, module `User`:
  - `NewestRun` and `ProfilePosts`, what getAllPost returns;
  - `ScanEdges` and `Following`, what isFollowing returns;
  - the methods `GetAllPost` and `IsFollowing`, with their loops;
  - `GetUsername` and `ShowFollowButton`;
  - the `UserView` class, the component state, with `InitialSetup` and `CreateFollow`.

### Error paths

- An operation called without a connected wallet returns `Failure(WalletNotConnected)`
  before any lookup. This one constructor stands for every no-wallet throw: initialSetup
  on the profile page throws "Expected wallet to not be null", the other operations throw
  "something went wrong wallet isn't connected".
- `new PublicKey(props.id)` outside a try block returns `Failure(InvalidPublicKey)`.
- Every error caught inside a try block becomes the value the code returns after its
  `catch`.
- An on-chain submission is a parameter:
  - For createTweet it returns the ledger after confirmation, or None when `.rpc()`
    throws. addTweet reads the new tweet back from that ledger.
  - For createFollow it returns whether the submission was confirmed.

### Behaviour that follows the code, not the naming or comments around it

- Seed tags are `"state"`, `"tweet"` and `"follow"`.
- isFollowing bounds its scan by the profile's `followAccount` property
  (components/User.tsx:99-100), not by `followCount`. The decoded profile has no such
  field, so the model gives `StateAccount` an optional `followAccount`. When it is absent
  the answer is false. The scan also ends with false at the first edge whose fetch throws,
  because the catch is outside the loop.
- getAllPost counts down from `tweetCount - 1`. Its catch is outside the loop, so the
  first tweet fetch that throws ends the list. This differs from buildTweetList, whose
  inner catch skips the failed tweet and goes on.
- showFollowButton is `id !== walletKey || !hasAccount`. The button is hidden only on
  one's own page when one has a profile. The comment above it speaks of an "and".
- addTweet reads the new tweet back from the ledger after confirmation and prepends that
  record. It does not build the card from the input text. A submission error is caught
  and logged, not passed on to the caller.

## Model

| member | source | states |
|---|---|---|
| Util.BigEndian | components/util.ts:49 | the fixed-width big-endian encoding yields exactly `width` bytes |
| Util.BigEndianRoundTrip | components/util.ts:49 | reading the big-endian bytes of any `n < 256^width` back gives `n` |
| Util.FromBigEndianRoundTrip | components/util.ts:49 | re-encoding the value of any byte string at its own width gives the same bytes |
| Util.Be8RoundTrip | components/util.ts:46-53 | the 8-byte index seed decodes to the index, for every u64 index |
| Util.Be8Injective | components/util.ts:61-68 | two indices have the same 8-byte seed exactly when they are equal |
| Util.TweetSeedsInjective | components/util.ts:46-53 | tweet seed lists coincide exactly when owner and index both coincide |
| Util.FollowSeedsInjective | components/util.ts:61-68 | follow seed lists coincide exactly when owner and index both coincide |
| Util.SeedKindsDisjoint | components/util.ts:32-68 | profile seeds identify the owner; profile, tweet and follow seed lists never coincide |
| Util.GetStateAccount | components/util.ts:40-44 | the profile fetch reads the address derived from `["state", owner]` and fails exactly when no profile decodes there |
| Util.GetTweetAccount | components/util.ts:55-59 | the tweet fetch reads the address derived from `["tweet", owner, be8(index)]` and fails exactly when no tweet decodes there |
| Util.GetFollowAccount | components/util.ts:70-75 | the edge fetch reads the address derived from `["follow", owner, be8(index)]` and fails exactly when no edge decodes there |
| Util.GetHasAccount | components/util.ts:19-30 | true exactly when a profile decodes at the wallet's `["state", wallet]` address |
| Feed.AuthorEntriesSpec | components/Feed.tsx:63-85 | no profile gives no entries; otherwise the entries correspond one to one, in ascending order, to the indices below tweetCount whose fetch succeeds, and every entry carries the author's username and base58 key |
| Feed.BuildTweetList | components/Feed.tsx:63-85 | the buffer ends as its old contents followed by exactly the author's entries |
| Feed.FolloweesSpec | components/Feed.tsx:37-42 | the followees are the targets of the present edges below followCount, in ascending index order, with none dropped |
| Feed.MissingProfileSkipped | components/Feed.tsx:82-84 | an author whose profile fetch fails contributes nothing at any position, and leaves the others' entries intact |
| Feed.EntriesOfAppend | components/Feed.tsx:48-54 | collecting over two lists of authors is the concatenation of the two collections |
| Feed.InsertNewestFirst | components/Feed.tsx:55 | inserting into a newest-first list keeps it newest first and adds exactly the one entry |
| Feed.SortNewestFirst | components/Feed.tsx:55 | the sorted list is newest first and a permutation of its input |
| Feed.SortNewestFirstStable | components/Feed.tsx:55 | for every timestamp, the entries stamped with it keep their relative order |
| Feed.HomeFeedSpec | components/Feed.tsx:34-56 | the feed exists exactly when the viewer's profile fetch succeeds; it is the viewer's entries then the followees', sorted newest first, as a permutation, stably |
| Feed.NewTweetTargetsNextIndex | components/Feed.tsx:93-107 | the createTweet request names the profile address and the tweet address derived for index tweetCount, whose seed list no counted tweet of the owner shares; no request without a profile |
| Feed.FeedView.constructor | components/Feed.tsx:16-17 | the input and the shown list start empty |
| Feed.FeedView.SetInput | components/Feed.tsx:127 | the text field's change handler replaces the input |
| Feed.FeedView.CreateHomepage | components/Feed.tsx:29-61 | with no wallet it fails and changes nothing; otherwise it shows the home feed, or keeps the old list when the viewer's profile fetch throws |
| Feed.FeedView.InitialSetup | components/Feed.tsx:19-27 | the shown list ends as createHomepage leaves it |
| Feed.FeedView.AddTweet | components/Feed.tsx:87-120 | with no wallet it fails and changes nothing; once the request is confirmed and the tweet reads back, that card is prepended and the input cleared; on any caught error both are unchanged |
| User.NewestRunStops | components/User.tsx:54-69 | getAllPost returns at most tweetCount cards; when it returns fewer, the fetch at the next index down is the one that threw |
| User.NewestRunAt | components/User.tsx:57-66 | card j is the tweet at index tweetCount-1-j, fetched successfully, with the profile's username and the key text `id` |
| User.ProfileReversesFeedEntries | components/User.tsx:55-66 | for a profile whose tweets all fetch, the page lists exactly the entries buildTweetList (components/Feed.tsx:63-85) collects for it, in reverse order |
| User.GetAllPost | components/User.tsx:45-71 | fails without a wallet or with an invalid key; otherwise it returns the newest-first run of the profile's tweets, and nothing when the profile fetch throws |
| User.GetUsername | components/User.tsx:73-87 | fails exactly when there is no wallet; with a wallet, it fails exactly when `id` is not a valid key; otherwise it returns the username of the profile at the `["state", key]` address, or "" when no profile decodes there |
| User.PostsCarryUsername | components/User.tsx:55-82 | every card on the page carries the name getUsername returns and the key `id`; without a profile the name is "" and there are no cards |
| User.ScanEdgesSpec | components/User.tsx:100-105 | the scan succeeds exactly when some edge in range matches `id` and every edge before it fetched |
| User.ScanFindsMatch | components/User.tsx:100-105 | a matching edge reached with every earlier edge fetched makes the scan return true |
| User.ScanMatchWitness | components/User.tsx:100-105 | a successful scan exhibits its matching edge, with every earlier edge fetched |
| User.IsFollowing | components/User.tsx:91-112 | fails without a wallet; otherwise it returns the outcome of the scan over the wallet's edges |
| User.FollowingSpec | components/User.tsx:97-111 | isFollowing is true exactly when the profile and its `followAccount` bound exist and an edge below the bound matches with all earlier edges fetched |
| User.NewFollowTargetsNextIndex | components/User.tsx:121-135 | the createFollow request names the profile address and the follow address derived for index followCount, whose seed list no counted edge of the owner shares, and the key parsed from `id`; no request when the profile fetch or the parse throws |
| User.ShowFollowButton | components/User.tsx:148-149 | the button is hidden exactly when a wallet is connected, `id` is its own key, and it has a profile |
| User.UserView.constructor | components/User.tsx:20-23 | the page starts with no tweets, not following, no account and an empty name |
| User.UserView.InitialSetup | components/User.tsx:34-43 | sets the follow flag, the account flag, the posts and the name from their getters; an invalid `id` stops it after the two flags |
| User.UserView.CreateFollow | components/User.tsx:114-140 | fails without a wallet; otherwise the follow flag becomes true only when the request was built and confirmed, and is unchanged otherwise |

## Left out

- Rendering (JSX, CSS, the `Tweet` component's markup, `key` props) and logging (`console.log`) are not modelled; they decide no value.
- `components/SignUp.tsx`, `components/Main.tsx` and the `pages/` files are not part of this model (profile creation and routing).
- `getProgram` (connection and provider setup) is not modelled; a `Program` value stands for its result.
- `findProgramAddress` is a parameter. Its hashing and the bump it returns beside the address are not modelled, nor is the fact that distinct seed lists give distinct addresses; the seed lemmas stop at the seed lists.
- Base58 text and key parsing are parameters (`toBase58`, `parseKey`); no property of base58 is assumed.
- `fetchMultiple` throwing on bytes that do not decode is not modelled; an undecodable slot is absent, like a missing account.
- The on-chain program is a parameter (`submit`); what it writes, its counters and its clock are not modelled.
- `toNumber()` on a u64 counter throwing above 2^53, and the JavaScript `number` behind timestamps, are not modelled; counters and timestamps are exact integers.
- React scheduling is not modelled: state setters take effect at once, and no two handlers interleave. The race between two addTweet calls that read the same tweetCount is therefore not represented.
- Feed.FeedView.AddTweet: the source mutates the shown array in place (`unshift`) and passes the same reference to `setTweetList`, so React may not re-render; the model gives the new list as the state.
- Feed.FeedView.InitialSetup: the rejected promise when no wallet is connected is unobserved in the source; the model drops it rather than returning it.
- User.UserView.CreateFollow: the button's `disabled={isFollow}` guard is JSX and is not part of its contract.
