/**
 How a broker matches a binding key against a message's routing key, by the type of
 the exchange.  Bindings here carry no header arguments, so a headers exchange
 matches every message, as a fanout exchange does.
 */
module ExchangeTypes {

  /** The words between the dots; an empty key has none. */
  function Words(s: string): seq<string> {
    if s == "" then [] else Split(s)
  }

  function Split(s: string): (ws: seq<string>)
    ensures |ws| > 0
  {
    if s == "" then [""]
    else if s[0] == '.' then [""] + Split(s[1..])
    else
      var ws := Split(s[1..]);
      [[s[0]] + ws[0]] + ws[1..]
  }

  /** In a topic pattern `*` stands for one word and `#` for any number of words. */
  predicate TopicMatch(pattern: seq<string>, key: seq<string>)
    decreases |pattern| + |key|
  {
    if pattern == [] then key == []
    else if pattern[0] == "#" then TopicMatch(pattern[1..], key) || (key != [] && TopicMatch(pattern, key[1..]))
    else key != [] && (pattern[0] == "*" || pattern[0] == key[0]) && TopicMatch(pattern[1..], key[1..])
  }

  /** Types other than the four of the protocol route nothing. */
  predicate Matches(typ: string, pattern: string, key: string) {
    if typ == "direct" then pattern == key
    else if typ == "topic" then TopicMatch(Words(pattern), Words(key))
    else typ == "fanout" || typ == "headers"
  }

  predicate KnownType(typ: string) {
    typ == "direct" || typ == "topic" || typ == "fanout" || typ == "headers"
  }

  predicate WildcardFree(s: string) {
    forall w <- Words(s) :: w != "*" && w != "#"
  }

  // ----- what patterns match -----

  lemma {:induction false} TopicMatchesItself(key: seq<string>)
    ensures TopicMatch(key, key)
  {
    if key != [] {
      TopicMatchesItself(key[1..]);
      assert TopicMatch(key[1..], key[1..]);
      if key[0] == "#" {
        assert TopicMatch(key, key[1..]);
      }
    }
  }

  /** A binding key matches a message with the same key, wildcards or not. */
  lemma MatchesItself(typ: string, key: string)
    requires KnownType(typ)
    ensures Matches(typ, key, key)
  {
    TopicMatchesItself(Words(key));
  }

  /** A `#` stands for any number of words, none included. */
  lemma {:induction false} HashMatches(rest: seq<string>, key: seq<string>)
    ensures TopicMatch(["#"] + rest, key) <==> exists n | 0 <= n <= |key| :: TopicMatch(rest, key[n..])
    decreases |key|
  {
    var pattern := ["#"] + rest;
    assert pattern[1..] == rest && key[0..] == key;
    if key != [] {
      HashMatches(rest, key[1..]);
      assert forall n | 1 <= n <= |key| :: key[n..] == key[1..][n - 1..];
    }
  }

  /** A `*` stands for exactly one word, and any other word for itself. */
  lemma WordMatches(word: string, rest: seq<string>, key: seq<string>)
    requires word != "#"
    ensures TopicMatch([word] + rest, key) <==>
            key != [] && (word == "*" || word == key[0]) && TopicMatch(rest, key[1..])
    ensures TopicMatch([], key) <==> key == []
  {
    assert ([word] + rest)[1..] == rest;
  }

  /** An exchange of another type matches nothing. */
  lemma OthersMatchNothing(typ: string, pattern: string, key: string)
    ensures !KnownType(typ) ==> !Matches(typ, pattern, key)
  {
  }

  lemma {:induction false} PlainTopicMatch(pattern: seq<string>, key: seq<string>)
    requires forall w <- pattern :: w != "*" && w != "#"
    ensures TopicMatch(pattern, key) <==> pattern == key
    decreases |pattern|
  {
    if pattern != [] && key != [] {
      assert pattern[0] in pattern && forall w <- pattern[1..] :: w in pattern;
      PlainTopicMatch(pattern[1..], key[1..]);
      assert pattern == [pattern[0]] + pattern[1..] && key == [key[0]] + key[1..];
    } else if pattern != [] {
      assert pattern[0] in pattern;
    }
  }

  function Join(ws: seq<string>): string {
    if ws == [] then "" else if |ws| == 1 then ws[0] else ws[0] + "." + Join(ws[1..])
  }

  lemma {:induction false} JoinSplit(s: string)
    ensures Join(Split(s)) == s
  {
    if s != "" {
      JoinSplit(s[1..]);
      var ws := Split(s[1..]);
      if s[0] == '.' {
        assert ([""] + ws)[1..] == ws;
        assert s == "." + s[1..];
      } else {
        var first := [s[0]] + ws[0];
        assert ([first] + ws[1..])[1..] == ws[1..];
        assert s == [s[0]] + s[1..];
      }
    }
  }

  lemma {:induction false} NoDotInside(s: string)
    ensures forall w <- Split(s) :: '.' !in w
  {
    if s != "" {
      NoDotInside(s[1..]);
    }
  }

  /** The words are what stands between the dots of the key, and an empty key has none. */
  lemma WordsExactly(s: string)
    ensures Words("") == [] && Join(Words(s)) == s && forall w <- Words(s) :: '.' !in w
  {
    JoinSplit(s);
    NoDotInside(s);
  }

  /** A topic pattern without wildcards matches exactly the key it spells. */
  lemma PlainMatch(pattern: string, key: string)
    requires WildcardFree(pattern)
    ensures Matches("topic", pattern, key) <==> pattern == key
  {
    PlainTopicMatch(Words(pattern), Words(key));
    JoinSplit(pattern);
    JoinSplit(key);
  }
}
