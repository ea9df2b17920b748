/** `normalizeAssistantMessage` of the chat screen: the agent's reply text is cleaned up before it
    is shown. Literal two-character escapes `\n` become real line breaks, then one pair of
    wrapping double quotes is removed. */
module Normalize {

  const Backslash: char := '\\'
  const Quote: char := '"'

  /** A literal backslash followed by the letter `n` starts at index `i` of `s`. */
  predicate EscapedNewlineAt(s: string, i: int) {
    0 <= i < |s| - 1 && s[i] == Backslash && s[i + 1] == 'n'
  }

  predicate NoEscapedNewline(s: string) {
    forall i :: 0 <= i < |s| - 1 ==> !EscapedNewlineAt(s, i)
  }

  /** The number of indices at which a literal `\n` starts, counted independently of any scan. */
  function Occurrences(s: string): nat {
    if |s| < 2 then 0
    else (if EscapedNewlineAt(s, 0) then 1 else 0) + Occurrences(s[1..])
  }

  /** `text.replace(/\\n/g, "\n")`: a left-to-right scan that replaces each match with a newline
      and resumes after it. */
  function ReplaceEscapedNewlines(s: string): (r: string)
    ensures |r| <= |s|
    ensures NoEscapedNewline(r)
    ensures s != [] ==> r != [] && r[0] == if EscapedNewlineAt(s, 0) then '\n' else s[0]
  {
    if |s| < 2 then s
    else if EscapedNewlineAt(s, 0) then
      var rest := ReplaceEscapedNewlines(s[2..]);
      ConsNoEscapedNewline('\n', rest);
      ['\n'] + rest
    else
      var rest := ReplaceEscapedNewlines(s[1..]);
      ConsNoEscapedNewline(s[0], rest);
      [s[0]] + rest
  }

  /** Putting a character in front of a text without literal `\n` creates one only when the
      character is a backslash and the text starts with `n`. */
  lemma ConsNoEscapedNewline(c: char, t: string)
    requires NoEscapedNewline(t)
    requires t == [] || c != Backslash || t[0] != 'n'
    ensures NoEscapedNewline([c] + t)
  {
    var s := [c] + t;
    forall i | 0 <= i < |s| - 1 ensures !EscapedNewlineAt(s, i) {
      if i > 0 { assert !EscapedNewlineAt(t, i - 1); }
    }
  }

  /** The whole string starts and ends with a double quote (`startsWith('"') && endsWith('"')`);
      a lone `"` is both. */
  predicate IsWrapped(s: string) {
    |s| >= 1 && s[0] == Quote && s[|s| - 1] == Quote
  }

  /** `s.slice(1, -1)` when `s` is wrapped in quotes, else `s`. */
  function StripWrappingQuotes(s: string): (r: string)
    ensures IsWrapped(s) && |s| >= 2 ==> s == [Quote] + r + [Quote]
    ensures IsWrapped(s) && |s| == 1 ==> r == []
    ensures !IsWrapped(s) ==> r == s
  {
    if IsWrapped(s) then (if |s| >= 2 then s[1..|s| - 1] else []) else s
  }

  /** `normalizeAssistantMessage(text)`. */
  function NormalizeAssistantMessage(text: string): (r: string)
    ensures |r| <= |text|
    ensures NoEscapedNewline(r)
  {
    var replaced := ReplaceEscapedNewlines(text);
    StripKeepsNoEscapedNewline(replaced);
    StripWrappingQuotes(replaced)
  }

  /** Removing the outer characters cannot bring a backslash and an `n` together. */
  lemma StripKeepsNoEscapedNewline(s: string)
    requires NoEscapedNewline(s)
    ensures NoEscapedNewline(StripWrappingQuotes(s))
  {
    var r := StripWrappingQuotes(s);
    if IsWrapped(s) && |s| >= 2 {
      forall i | 0 <= i < |r| - 1 ensures !EscapedNewlineAt(r, i) {
        assert !EscapedNewlineAt(s, i + 1);
      }
    }
  }

  /** Every literal `\n` becomes one newline: the text shrinks by exactly one character per occurrence,
      which also shows that no two occurrences overlap. */
  lemma {:induction false} ReplaceLength(s: string)
    ensures |ReplaceEscapedNewlines(s)| == |s| - Occurrences(s)
  {
    if |s| >= 2 {
      if EscapedNewlineAt(s, 0) {
        ReplaceLength(s[2..]);
        assert !EscapedNewlineAt(s[1..], 0);
        assert Occurrences(s[1..]) == Occurrences(s[2..]) by {
          assert s[1..][1..] == s[2..];
        }
      } else {
        ReplaceLength(s[1..]);
      }
    }
  }

  /** A text without any literal `\n` is left as it is. */
  lemma {:induction false} ReplaceIdentity(s: string)
    requires NoEscapedNewline(s)
    ensures ReplaceEscapedNewlines(s) == s
  {
    if |s| >= 2 {
      assert !EscapedNewlineAt(s, 0);
      assert NoEscapedNewline(s[1..]) by {
        forall i | 0 <= i < |s[1..]| - 1 ensures !EscapedNewlineAt(s[1..], i) {
          assert !EscapedNewlineAt(s, i + 1);
        }
      }
      ReplaceIdentity(s[1..]);
    }
  }

  /** No literal `\n` anywhere is the same as zero occurrences. */
  lemma {:induction false} OccurrencesZero(s: string)
    ensures Occurrences(s) == 0 <==> NoEscapedNewline(s)
  {
    if |s| >= 2 {
      OccurrencesZero(s[1..]);
      assert NoEscapedNewline(s) <==> !EscapedNewlineAt(s, 0) && NoEscapedNewline(s[1..]) by {
        forall i | 0 <= i < |s| - 2 ensures EscapedNewlineAt(s, i + 1) == EscapedNewlineAt(s[1..], i) { }
        if !EscapedNewlineAt(s, 0) && NoEscapedNewline(s[1..]) {
          forall i | 0 <= i < |s| - 1 ensures !EscapedNewlineAt(s, i) {
            if i > 0 { assert !EscapedNewlineAt(s[1..], i - 1); }
          }
        }
      }
    }
  }

  /** In particular a text without any backslash is left as it is. */
  lemma ReplaceNoBackslash(s: string)
    requires Backslash !in s
    ensures ReplaceEscapedNewlines(s) == s
  {
    forall i | 0 <= i < |s| - 1 ensures !EscapedNewlineAt(s, i) {
      assert s[i] in s;
    }
    ReplaceIdentity(s);
  }

  /** The replacement is idempotent: a second pass finds nothing to replace. */
  lemma {:induction false} ReplaceIdempotent(s: string)
    ensures ReplaceEscapedNewlines(ReplaceEscapedNewlines(s)) == ReplaceEscapedNewlines(s)
  {
    ReplaceIdentity(ReplaceEscapedNewlines(s));
  }

  /** Quoting and stripping are inverse: wrapping any text in one pair of quotes and stripping
      gives the text back. */
  lemma StripWrapped(t: string)
    ensures StripWrappingQuotes([Quote] + t + [Quote]) == t
  {
    var s := [Quote] + t + [Quote];
    assert s[1..|s| - 1] == t;
  }

  /** Stripping happens once, not repeatedly: `""x""` keeps its inner quotes and comes out as `"x"`,
      which is itself still wrapped. */
  lemma StripOnce()
    ensures NormalizeAssistantMessage("\"\"x\"\"") == "\"x\""
    ensures IsWrapped(NormalizeAssistantMessage("\"\"x\"\""))
  {
    ReplaceNoBackslash("\"\"x\"\"");
  }

  /** A character that does not start a literal `\n` with what follows is copied as it is. */
  lemma ReplaceCons(c: char, t: string)
    requires t == [] || c != Backslash || t[0] != 'n'
    ensures ReplaceEscapedNewlines([c] + t) == [c] + ReplaceEscapedNewlines(t)
  {
    if t != [] {
      assert ([c] + t)[1..] == t;
    }
  }

  /** The scan never carries anything across a boundary that does not follow a backslash:
      replacing in `a + b` is replacing in `a`, then in `b`. */
  lemma {:induction false} ReplaceConcat(a: string, b: string)
    requires a == [] || a[|a| - 1] != Backslash
    ensures ReplaceEscapedNewlines(a + b) == ReplaceEscapedNewlines(a) + ReplaceEscapedNewlines(b)
  {
    if a == [] {
      assert a + b == b;
    } else if EscapedNewlineAt(a, 0) {
      assert (a + b)[2..] == a[2..] + b;
      ReplaceConcat(a[2..], b);
    } else {
      assert a + b == [a[0]] + (a[1..] + b);
      assert a == [a[0]] + a[1..];
      ReplaceCons(a[0], a[1..] + b);
      ReplaceCons(a[0], a[1..]);
      ReplaceConcat(a[1..], b);
    }
  }

  /** A literal backslash-n becomes a real line break. */
  lemma NormalizeEscapedExample()
    ensures NormalizeAssistantMessage("Hello\\nWorld") == "Hello\nWorld"
  {
    var hello, world := "Hello", "World";
    var tail := [Backslash, 'n'] + world;
    var out := hello + ['\n'] + world;
    assert ReplaceEscapedNewlines(tail) == ['\n'] + world by {
      assert EscapedNewlineAt(tail, 0);
      assert tail[2..] == world;
      ReplaceNoBackslash(world);
    }
    assert ReplaceEscapedNewlines(hello + tail) == out by {
      ReplaceNoBackslash(hello);
      ReplaceConcat(hello, tail);
    }
    assert hello + tail == "Hello\\nWorld";
    assert out == "Hello\nWorld";
    assert !IsWrapped(out);
  }

  /** A quoted reply: one pair of wrapping quotes is removed. */
  lemma NormalizeQuotedExample()
    ensures NormalizeAssistantMessage("\"quoted text\"") == "quoted text"
  {
    ReplaceNoBackslash("\"quoted text\"");
  }

  /** Nested quotes: only the outermost pair goes, inner quotes stay. */
  lemma NormalizeNestedExample()
    ensures NormalizeAssistantMessage("\"nested \"quotes\"\"") == "nested \"quotes\""
  {
    var inner := "nested \"quotes\"";
    var s := [Quote] + inner + [Quote];
    assert s == "\"nested \"quotes\"\"";
    ReplaceNoBackslash(s);
    StripWrapped(inner);
  }

  /** A reply that is a lone double quote starts and ends with one, so it is stripped to nothing. */
  lemma NormalizeLoneQuote()
    ensures NormalizeAssistantMessage("\"") == ""
  {
  }

  /** Normalising an already normalised text whose quotes are gone changes nothing more:
      only a second pair of wrapping quotes would be removed. */
  lemma NormalizeTwice(text: string)
    requires !IsWrapped(NormalizeAssistantMessage(text))
    ensures NormalizeAssistantMessage(NormalizeAssistantMessage(text)) == NormalizeAssistantMessage(text)
  {
    ReplaceIdentity(NormalizeAssistantMessage(text));
  }
}
