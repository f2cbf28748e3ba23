/**
 * Compound event keys of the form "<channel>:<event>".
 *
 * The router builds them with string concatenation when it announces a
 * subscription or sends an envelope, and takes inbound ones apart with
 * JavaScript's `String.prototype.split(':')`, which is modelled here as
 * `Split`.
 */
module EventKeys {

  const Separator: char := ':'

  /** The name JavaScript uses as a property key for the value `undefined`. */
  const UndefinedKey: string := "undefined"

  /** `${channel}:${event}` */
  function Key(channel: string, event: string): string
  {
    channel + [Separator] + event
  }

  /** The inverse of `Split`: the parts glued together with the separator. */
  function Join(parts: seq<string>): string
  {
    if |parts| == 0 then []
    else if |parts| == 1 then parts[0]
    else parts[0] + [Separator] + Join(parts[1..])
  }

  /**
   * `s.split(':')`: the maximal separator-free segments of `s`, in order.
   * There is always at least one segment; `Join` gives `s` back.
   */
  function Split(s: string): (parts: seq<string>)
    ensures |parts| >= 1
    ensures forall i :: 0 <= i < |parts| ==> Separator !in parts[i]
    ensures Join(parts) == s
  {
    if s == [] then [[]]
    else if s[0] == Separator then [[]] + Split(s[1..])
    else
      var rest := Split(s[1..]);
      assert Separator !in [s[0]] + rest[0];
      assert s == [s[0]] + s[1..];
      [[s[0]] + rest[0]] + rest[1..]
  }

  /** `eventSplit[0]`: the text before the first separator (all of it if there is none). */
  function ChannelOf(s: string): string
  {
    Split(s)[0]
  }

  /**
   * `eventSplit[1]` used as a property key: the segment between the first
   * and the second separator, or "undefined" when `s` has no separator.
   */
  function EventOf(s: string): string
  {
    var parts := Split(s);
    if |parts| > 1 then parts[1] else UndefinedKey
  }

  /** Splitting a separator-free prefix glues it onto the first segment. */
  lemma {:induction false} SplitPrefix(a: string, t: string)
    requires Separator !in a
    ensures Split(a + t) == [a + Split(t)[0]] + Split(t)[1..]
  {
    if a == [] {
      assert a + t == t;
      assert a + Split(t)[0] == Split(t)[0];
      assert Split(t) == [Split(t)[0]] + Split(t)[1..];
    } else {
      assert (a + t)[1..] == a[1..] + t;
      assert (a + t)[0] == a[0];
      SplitPrefix(a[1..], t);
      assert [a[0]] + (a[1..] + Split(t)[0]) == a + Split(t)[0];
    }
  }

  /** `Split` undoes `Join` on separator-free parts. */
  lemma {:induction false} SplitJoin(parts: seq<string>)
    requires |parts| >= 1
    requires forall i :: 0 <= i < |parts| ==> Separator !in parts[i]
    ensures Split(Join(parts)) == parts
  {
    if |parts| == 1 {
      SplitPrefix(parts[0], []);
      assert parts[0] + [] == parts[0];
    } else {
      var rest := parts[1..];
      SplitJoin(rest);
      var tail := [Separator] + Join(rest);
      assert Join(parts) == parts[0] + tail;
      SplitPrefix(parts[0], tail);
      assert tail[0] == Separator && tail[1..] == Join(rest);
      assert Split(tail) == [[]] + rest;
      assert parts[0] + [] == parts[0];
      assert parts == [parts[0]] + rest;
    }
  }

  /** An envelope key built by the router is routed back to the same pair. */
  lemma KeyRoundTrip(channel: string, event: string)
    requires Separator !in channel && Separator !in event
    ensures ChannelOf(Key(channel, event)) == channel
    ensures EventOf(Key(channel, event)) == event
  {
    var parts := [channel, event];
    assert Join(parts[1..]) == event;
    assert Join(parts) == Key(channel, event);
    SplitJoin(parts);
  }

  /**
   * With more than one separator, the channel is the text before the first
   * one and the event is the segment between the first and the second;
   * whatever follows is ignored.
   */
  lemma ExtraSegmentsIgnored(channel: string, event: string, rest: string)
    requires Separator !in channel && Separator !in event
    ensures ChannelOf(Key(channel, event) + [Separator] + rest) == channel
    ensures EventOf(Key(channel, event) + [Separator] + rest) == event
  {
    var s := Key(channel, event) + [Separator] + rest;
    var u := [Separator] + rest;
    assert s == channel + ([Separator] + (event + u));
    SplitPrefix(channel, [Separator] + (event + u));
    assert ([Separator] + (event + u))[1..] == event + u;
    SplitPrefix(event, u);
    assert u[1..] == rest;
    assert Split(u) == [[]] + Split(rest);
    assert event + [] == event && channel + [] == channel;
  }

  /** A key without any separator names a channel and the event "undefined". */
  lemma NoSeparator(s: string)
    requires Separator !in s
    ensures ChannelOf(s) == s
    ensures EventOf(s) == UndefinedKey
  {
    SplitPrefix(s, []);
    assert s + [] == s;
  }
}
