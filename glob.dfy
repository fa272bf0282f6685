/**
 * The glob matching that the Redis KEYS command applies to cache keys, restricted
 * to the one metacharacter the invalidation patterns use: `*` matches any
 * (possibly empty) substring; every other pattern character matches itself.
 */
module Glob {

  /** A pattern made of literal characters only. */
  predicate StarFree(p: string) {
    forall i :: 0 <= i < |p| ==> p[i] != '*'
  }

  /** Whether `key` is matched by `pattern`. */
  predicate Match(pattern: string, key: string)
    decreases |pattern| + |key|
  {
    if |pattern| == 0 then |key| == 0
    else if pattern[0] == '*' then
      Match(pattern[1..], key) || (|key| > 0 && Match(pattern, key[1..]))
    else
      |key| > 0 && key[0] == pattern[0] && Match(pattern[1..], key[1..])
  }

  /** A literal pattern matches exactly itself. */
  lemma {:induction false} LiteralMatch(lit: string, key: string)
    requires StarFree(lit)
    ensures Match(lit, key) <==> key == lit
  {
    if |lit| > 0 && |key| > 0 {
      LiteralMatch(lit[1..], key[1..]);
      if key[1..] == lit[1..] && key[0] == lit[0] {
        assert key == [key[0]] + key[1..];
        assert lit == [lit[0]] + lit[1..];
      }
    }
  }

  /** A literal head consumes exactly its own characters from the front of the key. */
  lemma {:induction false} LiteralHead(lit: string, rest: string, key: string)
    requires StarFree(lit)
    ensures Match(lit + rest, key) <==> lit <= key && Match(rest, key[|lit|..])
  {
    if |lit| == 0 {
      assert lit + rest == rest;
      assert key[0..] == key;
    } else {
      assert (lit + rest)[0] == lit[0];
      assert (lit + rest)[1..] == lit[1..] + rest;
      if |key| > 0 {
        LiteralHead(lit[1..], rest, key[1..]);
        if |lit| <= |key| {
          assert key[1..][|lit| - 1..] == key[|lit|..];
        }
        if lit <= key {
          assert lit[1..] <= key[1..];
        }
        if lit[1..] <= key[1..] && key[0] == lit[0] {
          assert lit == [lit[0]] + lit[1..];
          assert key[..|lit|] == [key[0]] + key[1..][..|lit| - 1];
        }
      }
    }
  }

  /** A lone `*` matches every key. */
  lemma {:induction false} StarMatchesAll(key: string)
    ensures Match("*", key)
  {
    if |key| > 0 {
      StarMatchesAll(key[1..]);
    }
  }

  /** A leading `*` may skip any prefix of the key. */
  lemma {:induction false} StarSkips(rest: string, skipped: string, key: string)
    requires Match(rest, key)
    ensures Match("*" + rest, skipped + key)
    decreases |skipped|
  {
    var p := "*" + rest;
    assert p[1..] == rest;
    if |skipped| == 0 {
      assert skipped + key == key;
    } else {
      StarSkips(rest, skipped[1..], key);
      assert (skipped + key)[1..] == skipped[1..] + key;
    }
  }

  /** `lit*` matches exactly the keys that start with the literal `lit`. */
  lemma PrefixPattern(lit: string, key: string)
    requires StarFree(lit)
    ensures Match(lit + "*", key) <==> lit <= key
  {
    LiteralHead(lit, "*", key);
    if lit <= key {
      StarMatchesAll(key[|lit|..]);
    }
  }

  /** `*:*` matches every key that contains a colon. */
  lemma ColonBetweenStars(before: string, after: string)
    ensures Match("*:*", before + ":" + after)
  {
    StarMatchesAll(after);
    LiteralHead(":", "*", ":" + after);
    assert (":" + after)[1..] == after;
    assert ":" + "*" == ":*";
    StarSkips(":*", before, ":" + after);
    assert "*" + ":*" == "*:*";
    assert before + (":" + after) == before + ":" + after;
  }
}
