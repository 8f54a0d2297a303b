/** The text both deduplicators use to recognise a gossip message. */
module Fingerprint {

  function Of(from: string, topic: string, timestamp: string): string {
    from + ":" + topic + ":" + timestamp
  }

  lemma FirstColon(a: string, s: string, b: string, t: string)
    requires ':' !in a && ':' !in b && a + ":" + s == b + ":" + t
    ensures a == b && s == t
  {
    var x, y := a + ":" + s, b + ":" + t;
    assert x[|a|] == ':' && y[|b|] == ':';
    assert forall i :: 0 <= i < |a| ==> x[i] == a[i];
    assert forall i :: 0 <= i < |b| ==> y[i] == b[i];
    assert |a| == |b|;
    assert a == x[..|a|] && b == y[..|b|];
    assert s == x[|a| + 1..] && t == y[|b| + 1..];
  }

  lemma LastColon(s: string, a: string, t: string, b: string)
    requires ':' !in a && ':' !in b && s + ":" + a == t + ":" + b
    ensures s == t && a == b
  {
    var x, y := s + ":" + a, t + ":" + b;
    assert x[|s|] == ':' && y[|t|] == ':';
    assert forall i :: |s| < i < |x| ==> x[i] == a[i - |s| - 1];
    assert forall i :: |t| < i < |y| ==> y[i] == b[i - |t| - 1];
    assert |s| == |t|;
    assert s == x[..|s|] && t == y[..|t|];
    assert a == x[|s| + 1..] && b == y[|t| + 1..];
  }

  /**
   Peer ids and printed timestamps hold no colon, so the fingerprint identifies the sender, the
   topic and the time, although topics such as "adversa:heartbeat" do hold one.
   */
  lemma Injective(from: string, topic: string, timestamp: string, from': string, topic': string, timestamp': string)
    requires ':' !in from && ':' !in from' && ':' !in timestamp && ':' !in timestamp'
    requires Of(from, topic, timestamp) == Of(from', topic', timestamp')
    ensures from == from' && topic == topic' && timestamp == timestamp'
  {
    assert Of(from, topic, timestamp) == from + ":" + (topic + ":" + timestamp);
    assert Of(from', topic', timestamp') == from' + ":" + (topic' + ":" + timestamp');
    FirstColon(from, topic + ":" + timestamp, from', topic' + ":" + timestamp');
    LastColon(topic, timestamp, topic', timestamp');
  }

  /** The last `n` elements, or all of them. */
  function Last<T>(n: nat, s: seq<T>): (r: seq<T>)
    ensures |r| == if |s| <= n then |s| else n
  {
    if |s| <= n then s else s[|s| - n..]
  }

  /** Appending and then trimming the front by one keeps the last `n`. */
  lemma LastAppend<T>(n: nat, s: seq<T>, x: T)
    ensures var q := Last(n, s) + [x]; Last(n, s + [x]) == if |q| > n then q[1..] else q
  {
  }
}
