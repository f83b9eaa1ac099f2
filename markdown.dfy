/** Escaping of text for the chat platform's MarkdownV2 parse mode.

    The bot escapes a reply by prefixing each of eighteen reserved characters
    with a backslash. The source does it with a chain of one-character
    replacements (`EscapeAsWritten`); the model's reference definition is the
    single character-by-character pass `Escape`, and `EscapeAsWrittenIsEscape`
    proves the two equal. */
module MarkdownV2 {

  const BACKSLASH: char := '\\'

  /** The reserved characters, in the order the source replaces them. */
  const RESERVED: seq<char> :=
    ['_', '*', '[', ']', '(', ')', '~', '`', '>', '#', '+', '-', '=', '|', '{', '}', '.', '!']

  predicate IsReserved(c: char) {
    || c == '_' || c == '*' || c == '[' || c == ']' || c == '(' || c == ')'
    || c == '~' || c == '`' || c == '>' || c == '#' || c == '+' || c == '-'
    || c == '=' || c == '|' || c == '{' || c == '}' || c == '.' || c == '!'
  }

  /** The list of replacements and the predicate name the same characters,
      each once. */
  lemma ReservedListed()
    ensures forall c :: c in RESERVED <==> IsReserved(c)
    ensures Distinct(RESERVED) && BACKSLASH !in RESERVED
    ensures |RESERVED| == 18
  {
  }

  /** What one input character becomes. */
  function EscapeChar(c: char): seq<char> {
    if IsReserved(c) then [BACKSLASH, c] else [c]
  }

  /** The escaper as one pass over the input. */
  function Escape(s: string): string
    decreases |s|
  {
    if s == [] then [] else EscapeChar(s[0]) + Escape(s[1..])
  }

  /** The number of reserved characters in `s`. */
  function CountReserved(s: string): nat
    decreases |s|
  {
    if s == [] then 0 else (if IsReserved(s[0]) then 1 else 0) + CountReserved(s[1..])
  }

  // ---------------------------------------------------------------------
  // The escaper as written: a chain of replacements.
  // ---------------------------------------------------------------------

  /** `s.replace(target, replacement)` for a one-character `target`:
      every occurrence in the original text is replaced, and the inserted
      text is not scanned again. */
  function Replace(s: string, target: char, replacement: string): string
    decreases |s|
  {
    if s == [] then []
    else (if s[0] == target then replacement else [s[0]]) + Replace(s[1..], target, replacement)
  }

  /** Replaces each character of `targets`, one after the other, by itself
      prefixed with a backslash. */
  function ReplaceEach(s: string, targets: seq<char>): string
    decreases |targets|
  {
    if targets == [] then s
    else ReplaceEach(Replace(s, targets[0], [BACKSLASH, targets[0]]), targets[1..])
  }

  /** The eighteen chained replacements, in the source's order. */
  function EscapeAsWritten(text: string): string {
    ReplaceEach(text, RESERVED)
  }

  // ---------------------------------------------------------------------
  // The chain equals the single pass.
  // ---------------------------------------------------------------------

  /** The text after the replacements of the characters in `done`. */
  function EscapeIn(s: string, done: seq<char>): string
    decreases |s|
  {
    if s == [] then []
    else (if s[0] in done then [BACKSLASH, s[0]] else [s[0]]) + EscapeIn(s[1..], done)
  }

  predicate Distinct(cs: seq<char>) {
    forall i, j :: 0 <= i < j < |cs| ==> cs[i] != cs[j]
  }

  lemma {:induction false} ReplaceConcat(a: string, b: string, target: char, replacement: string)
    ensures Replace(a + b, target, replacement) == Replace(a, target, replacement) + Replace(b, target, replacement)
    decreases |a|
  {
    if a == [] {
      assert a + b == b;
    } else {
      assert (a + b)[1..] == a[1..] + b;
      ReplaceConcat(a[1..], b, target, replacement);
    }
  }

  /** One more replacement of a character not yet handled extends `done`:
      the backslashes and characters already inserted are left alone. */
  lemma {:induction false} ReplaceStep(s: string, done: seq<char>, t: char)
    requires t != BACKSLASH && t !in done
    ensures Replace(EscapeIn(s, done), t, [BACKSLASH, t]) == EscapeIn(s, done + [t])
    decreases |s|
  {
    if s != [] {
      var head := if s[0] in done then [BACKSLASH, s[0]] else [s[0]];
      assert EscapeIn(s, done) == head + EscapeIn(s[1..], done);
      ReplaceConcat(head, EscapeIn(s[1..], done), t, [BACKSLASH, t]);
      ReplaceStep(s[1..], done, t);
      if s[0] in done {
        assert head[1..] == [s[0]];
        assert Replace(head, t, [BACKSLASH, t]) == head;
      } else {
        assert Replace(head, t, [BACKSLASH, t]) == if s[0] == t then [BACKSLASH, t] else [s[0]];
      }
    }
  }

  lemma {:induction false} ReplaceEachEscapes(s: string, done: seq<char>, targets: seq<char>)
    requires BACKSLASH !in targets
    requires Distinct(targets)
    requires forall i :: 0 <= i < |targets| ==> targets[i] !in done
    ensures ReplaceEach(EscapeIn(s, done), targets) == EscapeIn(s, done + targets)
    decreases |targets|
  {
    if targets == [] {
      assert done + targets == done;
    } else {
      var t := targets[0];
      ReplaceStep(s, done, t);
      forall i | 0 <= i < |targets[1..]|
        ensures targets[1..][i] !in done + [t]
      {
        assert targets[1..][i] == targets[i + 1];
      }
      ReplaceEachEscapes(s, done + [t], targets[1..]);
      assert done + [t] + targets[1..] == done + targets;
    }
  }

  lemma {:induction false} EscapeInNothing(s: string)
    ensures EscapeIn(s, []) == s
    decreases |s|
  {
    if s != [] {
      EscapeInNothing(s[1..]);
    }
  }

  lemma {:induction false} EscapeInReserved(s: string)
    ensures EscapeIn(s, RESERVED) == Escape(s)
    decreases |s|
  {
    if s != [] {
      ReservedListed();
      EscapeInReserved(s[1..]);
    }
  }

  /** The chain of eighteen replacements is the single pass: no replacement
      touches what an earlier one inserted, because backslash is not
      reserved and no character is replaced twice. */
  lemma EscapeAsWrittenIsEscape(s: string)
    ensures EscapeAsWritten(s) == Escape(s)
  {
    ReservedListed();
    EscapeInNothing(s);
    ReplaceEachEscapes(s, [], RESERVED);
    assert [] + RESERVED == RESERVED;
    EscapeInReserved(s);
  }

  // ---------------------------------------------------------------------
  // Properties of the escaper.
  // ---------------------------------------------------------------------

  /** Escaping distributes over concatenation. */
  lemma {:induction false} EscapeConcat(a: string, b: string)
    ensures Escape(a + b) == Escape(a) + Escape(b)
    decreases |a|
  {
    if a == [] {
      assert a + b == b;
    } else {
      assert (a + b)[1..] == a[1..] + b;
      EscapeConcat(a[1..], b);
    }
  }

  /** Each character is escaped independently of its neighbours. */
  lemma {:induction false} EscapeAt(s: string, i: nat)
    requires i < |s|
    ensures Escape(s) == Escape(s[..i]) + EscapeChar(s[i]) + Escape(s[i + 1..])
  {
    var before, after := s[..i], s[i + 1..];
    assert s == before + ([s[i]] + after);
    EscapeConcat(before, [s[i]] + after);
    EscapeConcat([s[i]], after);
    assert Escape([s[i]]) == EscapeChar(s[i]) + Escape([]);
  }

  /** The output is one character longer per reserved character. */
  lemma {:induction false} EscapeLength(s: string)
    ensures |Escape(s)| == |s| + CountReserved(s)
    decreases |s|
  {
    if s != [] {
      EscapeLength(s[1..]);
    }
  }

  lemma {:induction false} CountReservedZero(s: string)
    ensures CountReserved(s) == 0 <==> forall i :: 0 <= i < |s| ==> !IsReserved(s[i])
    decreases |s|
  {
    if s != [] {
      CountReservedZero(s[1..]);
      assert forall i :: 1 <= i < |s| ==> s[i] == s[1..][i - 1];
    }
  }

  lemma {:induction false} EscapeIdentityOnPlain(s: string)
    requires CountReserved(s) == 0
    ensures Escape(s) == s
    decreases |s|
  {
    if s != [] {
      EscapeIdentityOnPlain(s[1..]);
    }
  }

  /** Escaping changes nothing exactly when there is nothing to escape;
      in particular it maps the empty text to itself. */
  lemma {:induction false} EscapeIdentityIff(s: string)
    ensures Escape(s) == s <==> forall i :: 0 <= i < |s| ==> !IsReserved(s[i])
    ensures Escape([]) == []
  {
    CountReservedZero(s);
    EscapeLength(s);
    if CountReserved(s) == 0 {
      EscapeIdentityOnPlain(s);
    }
  }

  /** Backslash is not reserved: a backslash of the input in front of a
      reserved character is kept, and a second one is inserted. */
  lemma BackslashPassesThrough(c: char)
    requires IsReserved(c)
    ensures Escape([BACKSLASH]) == [BACKSLASH]
    ensures Escape([BACKSLASH, c]) == [BACKSLASH, BACKSLASH, c]
  {
    EscapeConcat([BACKSLASH], [c]);
    assert [BACKSLASH, c] == [BACKSLASH] + [c];
  }

  /** The output never starts with a reserved character. */
  lemma EscapeHeadNotReserved(s: string)
    ensures Escape(s) != [] ==> !IsReserved(Escape(s)[0])
  {
  }

  /** Every reserved character of the output is immediately preceded by a
      backslash. (That backslash may itself follow a backslash of the input,
      which MarkdownV2 then reads as an escaped backslash.) */
  lemma {:induction false} EscapeReservedPreceded(s: string)
    ensures forall i :: 0 <= i < |Escape(s)| && IsReserved(Escape(s)[i]) ==> 0 < i && Escape(s)[i - 1] == BACKSLASH
    decreases |s|
  {
    if s != [] {
      var head, tail := EscapeChar(s[0]), Escape(s[1..]);
      EscapeReservedPreceded(s[1..]);
      EscapeHeadNotReserved(s[1..]);
      assert Escape(s) == head + tail;
      forall i | 0 <= i < |head + tail| && IsReserved((head + tail)[i])
        ensures 0 < i && (head + tail)[i - 1] == BACKSLASH
      {
        if i >= |head| {
          assert (head + tail)[i] == tail[i - |head|];
          if i > |head| {
            assert (head + tail)[i - 1] == tail[i - 1 - |head|];
          }
        }
      }
    }
  }

  lemma {:induction false} CountReservedConcat(a: string, b: string)
    ensures CountReserved(a + b) == CountReserved(a) + CountReserved(b)
    decreases |a|
  {
    if a == [] {
      assert a + b == b;
    } else {
      assert (a + b)[1..] == a[1..] + b;
      CountReservedConcat(a[1..], b);
    }
  }

  /** Escaping keeps every reserved character and adds only backslashes. */
  lemma {:induction false} EscapeKeepsCount(s: string)
    ensures CountReserved(Escape(s)) == CountReserved(s)
    decreases |s|
  {
    if s != [] {
      CountReservedConcat(EscapeChar(s[0]), Escape(s[1..]));
      EscapeKeepsCount(s[1..]);
      assert CountReserved(EscapeChar(s[0])) == if IsReserved(s[0]) then 1 else 0 by {
        if IsReserved(s[0]) {
          assert EscapeChar(s[0])[1..] == [s[0]];
        }
      }
    }
  }

  /** Escaping is not idempotent: escaping twice strictly lengthens any text
      that holds a reserved character. */
  lemma EscapeNotIdempotent(s: string)
    requires CountReserved(s) > 0
    ensures |Escape(Escape(s))| > |Escape(s)|
    ensures Escape(Escape(s)) != Escape(s)
  {
    EscapeKeepsCount(s);
    EscapeLength(Escape(s));
  }

  // ---------------------------------------------------------------------
  // An inverse: escaping loses no information.
  // ---------------------------------------------------------------------

  /** Removes the backslash in front of each reserved character. */
  function Unescape(s: string): string
    decreases |s|
  {
    if s == [] then []
    else if |s| >= 2 && s[0] == BACKSLASH && IsReserved(s[1]) then [s[1]] + Unescape(s[2..])
    else [s[0]] + Unescape(s[1..])
  }

  /** Unescaping undoes escaping; a backslash of the input is never mistaken
      for an inserted one. */
  lemma {:induction false} UnescapeEscape(s: string)
    ensures Unescape(Escape(s)) == s
    decreases |s|
  {
    if s != [] {
      var head, tail := EscapeChar(s[0]), Escape(s[1..]);
      UnescapeEscape(s[1..]);
      EscapeHeadNotReserved(s[1..]);
      if IsReserved(s[0]) {
        assert (head + tail)[2..] == tail;
      } else {
        assert (head + tail)[1..] == tail;
      }
    }
  }

  /** Different texts escape differently. */
  lemma EscapeInjective(a: string, b: string)
    requires Escape(a) == Escape(b)
    ensures a == b
  {
    UnescapeEscape(a);
    UnescapeEscape(b);
  }

  /** `t` is the escape of some text. */
  ghost predicate IsEscaped(t: string) {
    exists s :: Escape(s) == t
  }

  /** Whether a text is an escape can be decided: unescape it and escape
      the result again. */
  lemma IsEscapedDecided(t: string)
    ensures IsEscaped(t) <==> Escape(Unescape(t)) == t
  {
    if IsEscaped(t) {
      var s :| Escape(s) == t;
      UnescapeEscape(s);
    }
  }

  /** Every reserved character of an escaped text is immediately preceded
      by a backslash. */
  lemma EscapedReservedPreceded(t: string)
    requires IsEscaped(t)
    ensures forall i :: 0 <= i < |t| && IsReserved(t[i]) ==> 0 < i && t[i - 1] == BACKSLASH
  {
    var s :| Escape(s) == t;
    EscapeReservedPreceded(s);
  }
}
