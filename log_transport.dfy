// examples/express-bridge/src/MessagePortTransport.ts: a log transport that keeps
// messages in a buffer until a port is connected, then flushes them in order
// and posts every later message directly.
module LogTransport {
  import opened JsValues

  /** triple-beam's `LEVEL` and `MESSAGE`, the registered symbols `Symbol.for('level')` and `Symbol.for('message')`. */
  const LevelKey: Key := SymKey("level")
  const MessageKey: Key := SymKey("message")

  /** `{ LEVEL, MESSAGE }` as posted. */
  datatype LogMessage = LogMessage(level: Value, message: Value)

  /** One `port.postMessage(m)`: the port (by identity) and the message. */
  datatype Post = Post(port: nat, message: LogMessage)

  /** The messages of a sequence of posts, in order. */
  function Messages(posts: seq<Post>): (ms: seq<LogMessage>)
    ensures |ms| == |posts|
  {
    if posts == [] then [] else Messages(posts[..|posts| - 1]) + [posts[|posts| - 1].message]
  }

  /** Posting `ms` to `port`, one after another. */
  function PostsTo(port: nat, ms: seq<LogMessage>): (posts: seq<Post>)
    ensures |posts| == |ms|
  {
    if ms == [] then [] else PostsTo(port, ms[..|ms| - 1]) + [Post(port, ms[|ms| - 1])]
  }

  /** Posting a batch and reading the messages back gives the batch, in order. */
  lemma {:induction false} MessagesOfPostsTo(port: nat, ms: seq<LogMessage>)
    ensures Messages(PostsTo(port, ms)) == ms
  {
    if ms != [] {
      var init := ms[..|ms| - 1];
      MessagesOfPostsTo(port, init);
      var posts := PostsTo(port, ms);
      assert posts[..|posts| - 1] == PostsTo(port, init);
      assert ms == init + [ms[|ms| - 1]];
    }
  }

  /** The messages of two runs of posts are the messages of each, in order. */
  lemma {:induction false} MessagesAppend(a: seq<Post>, b: seq<Post>)
    ensures Messages(a + b) == Messages(a) + Messages(b)
    decreases |b|
  {
    if b == [] {
      assert a + b == a;
    } else {
      var init := b[..|b| - 1];
      MessagesAppend(a, init);
      assert (a + b)[..|a + b| - 1] == a + init;
      assert (a + b)[|a + b| - 1] == b[|b| - 1];
    }
  }

  class MessagePortTransport {
    /** `port`: the connected port, if any. */
    var port: Option<nat>
    /** `buffer`: the messages logged before a port was connected; absent is `undefined`. */
    var buffer: Option<seq<LogMessage>>
    /** Every `postMessage`, in order. */
    var posted: seq<Post>
    /** How many times a `log` callback has been invoked. */
    var callbacks: nat
    /** Every message handed to `log`, in order. */
    ghost var logged: seq<LogMessage>

    /** The buffered messages, none when the buffer is absent. */
    function Buffered(): (ms: seq<LogMessage>)
      reads this
      ensures buffer.None? ==> ms == []
      ensures buffer.Some? ==> ms == buffer.value
    {
      if buffer.Some? then buffer.value else []
    }

    /**
     * Nothing is lost or reordered: the posted messages followed by the buffer are
     * exactly the logged ones; and once connected, nothing is buffered.
     */
    ghost predicate Valid()
      reads this
    {
      && Messages(posted) + Buffered() == logged
      && (port.Some? ==> buffer.None?)
    }

    /** The `connected` getter: once connected, every message logged has been posted. */
    function Connected(): (c: bool)
      reads this
      ensures c && Valid() ==> Buffered() == [] && Messages(posted) == logged
    {
      port.Some?
    }

    /** `new MessagePortTransport(port?)`: connected at once when a port is given. */
    constructor (port: Option<nat>)
      ensures Valid()
      ensures Connected() <==> port.Some?
      ensures this.port == port && buffer.None? && posted == [] && callbacks == 0 && logged == []
    {
      this.port := None;
      buffer := None;
      posted := [];
      callbacks := 0;
      logged := [];
      new;
      if port.Some? {
        Connect(port.value);
      }
    }

    /** `connect(port)`: later messages go to `p`; the buffer is flushed to it. */
    method Connect(p: nat)
      requires Messages(posted) + Buffered() == logged
      modifies this`port, this`buffer, this`posted
      ensures Valid()
      ensures port == Some(p) && buffer.None?
      ensures posted == old(posted) + PostsTo(p, old(Buffered()))
      ensures Messages(posted) == logged
    {
      port := Some(p);
      Flush();
    }

    /** `#flush()`: with a buffer and a port, posts the buffer in order and drops it. */
    method Flush()
      requires Messages(posted) + Buffered() == logged
      modifies this`buffer, this`posted
      ensures Messages(posted) + Buffered() == logged
      ensures old(buffer).None? || port.None? ==> buffer == old(buffer) && posted == old(posted)
      ensures old(buffer).Some? && port.Some? ==>
        buffer.None? && posted == old(posted) + PostsTo(port.value, old(buffer).value)
    {
      if buffer.None? || port.None? {
        return;
      }
      var target := port.value;
      var ms := buffer.value;
      for n := 0 to |ms|
        invariant posted == old(posted) + PostsTo(target, ms[..n])
      {
        assert ms[..n + 1][..n] == ms[..n];
        posted := posted + [Post(target, ms[n])];
      }
      assert ms[..|ms|] == ms;
      MessagesAppend(old(posted), PostsTo(target, ms));
      MessagesOfPostsTo(target, ms);
      assert Messages(posted) == Messages(old(posted)) + ms;
      buffer := None;
    }

    /**
     * `log(info, callback)`: the message is posted when connected and buffered
     * otherwise (creating the buffer if absent); the callback runs once either way.
     */
    method Log(info: map<Key, Value>)
      requires Valid()
      modifies this`buffer, this`posted, this`callbacks, this`logged
      ensures Valid()
      ensures var m := LogMessage(Get(info, LevelKey), Get(info, MessageKey));
        && logged == old(logged) + [m]
        && (port.Some? ==> posted == old(posted) + [Post(port.value, m)] && buffer == old(buffer))
        && (port.None? ==> posted == old(posted) && buffer == Some(old(Buffered()) + [m]))
      ensures callbacks == old(callbacks) + 1
    {
      var m := LogMessage(Get(info, LevelKey), Get(info, MessageKey));
      if port.Some? {
        posted := posted + [Post(port.value, m)];
        MessagesAppend(old(posted), [Post(port.value, m)]);
      } else {
        buffer := Some(Buffered() + [m]);
      }
      logged := logged + [m];
      callbacks := callbacks + 1;
    }
  }
}
