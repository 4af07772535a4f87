/** The card record every list in the client holds (components/Tweet.tsx). */
module Tweet {
  import opened Util

  datatype TweetProps = TweetProps(tweet: string, authorName: string, authorKey: string, timestamp: int)

  /** The object literal the client pushes for tweet `t` by the profile `author`. */
  function Card(author: StateAccount, authorKey: string, t: TweetAccount): TweetProps
  {
    TweetProps(t.text, author.username, authorKey, t.timestamp)
  }
}
