/**
  The clean-up pass of `parseSQL` (js/er-diagram/parser.js:10-12): block comments are
  removed, then line comments, then every CR LF pair becomes LF. Each step is one global
  `String.prototype.replace`, which scans left to right and resumes after each match.
*/
module SqlComments {
  import opened Wrappers
  import opened Text

  // The index of the first star-slash pair starting at or after i, if any.
  function BlockClose(s: string, i: nat): (r: Option<nat>)
    requires i <= |s|
    ensures r.Some? ==> i <= r.value && r.value + 1 < |s| && s[r.value] == '*' && s[r.value + 1] == '/'
    decreases |s| - i
  {
    if i + 1 >= |s| then None
    else if s[i] == '*' && s[i + 1] == '/' then Some(i)
    else BlockClose(s, i + 1)
  }

  predicate OpensBlock(s: string) {
    |s| >= 2 && s[0] == '/' && s[1] == '*'
  }

  // The replace with the lazy block-comment pattern: an opening slash-star is removed with
  // everything up to the first star-slash after it; an opening without a closing one stays,
  // and the scan goes on with the next character.
  function StripBlockComments(s: string): (r: string)
    ensures |r| <= |s|
    decreases |s|
  {
    if s == [] then []
    else if OpensBlock(s) && BlockClose(s, 2).Some? then StripBlockComments(s[BlockClose(s, 2).value + 2..])
    else [s[0]] + StripBlockComments(s[1..])
  }

  // A slash followed by a star never occurs in s.
  predicate NoBlockOpen(s: string) {
    forall i :: 0 <= i < |s| - 1 ==> !(s[i] == '/' && s[i + 1] == '*')
  }

  // Text with no slash-star in it passes the block-comment pass unchanged.
  lemma {:induction false} StripBlockCommentsIdentity(s: string)
    requires NoBlockOpen(s)
    ensures StripBlockComments(s) == s
    decreases |s|
  {
    if s != [] {
      assert !OpensBlock(s);
      assert NoBlockOpen(s[1..]) by {
        forall i | 0 <= i < |s[1..]| - 1 ensures !(s[1..][i] == '/' && s[1..][i + 1] == '*') {
          assert s[1..][i] == s[i + 1] && s[1..][i + 1] == s[i + 2];
        }
      }
      StripBlockCommentsIdentity(s[1..]);
    }
  }

  // No star-slash pair starts in s[i..j].
  predicate NoCloseBetween(s: string, i: nat, j: nat)
    requires j < |s|
  {
    forall k :: i <= k < j ==> !(s[k] == '*' && s[k + 1] == '/')
  }

  // The search for the closing pair stops at the first one.
  lemma {:induction false} BlockCloseFirst(s: string, i: nat, j: nat)
    requires i <= j && j + 1 < |s| && s[j] == '*' && s[j + 1] == '/'
    requires NoCloseBetween(s, i, j)
    ensures BlockClose(s, i) == Some(j)
    decreases j - i
  {
    if i < j {
      BlockCloseFirst(s, i + 1, j);
    }
  }

  // A comment at the front is removed up to the first star-slash after its opening, and
  // the pass goes on with what follows it.
  lemma ClosedCommentRemoved(body: string, rest: string)
    requires forall k :: 0 <= k < |body| - 1 ==> !(body[k] == '*' && body[k + 1] == '/')
    ensures StripBlockComments("/*" + body + "*/" + rest) == StripBlockComments(rest)
  {
    var s := "/*" + body + "*/" + rest;
    var j := 2 + |body|;
    assert s[j] == '*' && s[j + 1] == '/';
    forall k | 2 <= k < j
      ensures !(s[k] == '*' && s[k + 1] == '/')
    {
      assert s[k] == body[k - 2];
      if k + 1 < j {
        assert s[k + 1] == body[k - 1];
      } else {
        assert s[k + 1] == '*';
      }
    }
    BlockCloseFirst(s, 2, j);
    assert s[j + 2..] == rest;
  }

  // Text before the first slash is kept as it is.
  lemma {:induction false} KeptBeforeSlash(a: string, t: string)
    requires forall k :: 0 <= k < |a| ==> a[k] != '/'
    ensures StripBlockComments(a + t) == a + StripBlockComments(t)
    decreases |a|
  {
    if a == [] {
      assert a + t == t;
    } else {
      assert (a + t)[0] == a[0];
      assert (a + t)[1..] == a[1..] + t;
      KeptBeforeSlash(a[1..], t);
      assert a == [a[0]] + a[1..];
    }
  }

  /** The first line terminator at or after i, or the end of s: where `.*` stops. */
  function LineEnd(s: string, i: nat): (j: nat)
    requires i <= |s|
    ensures i <= j <= |s|
    ensures j < |s| ==> IsLineTerminator(s[j])
    decreases |s| - i
  {
    if i == |s| || IsLineTerminator(s[i]) then i else LineEnd(s, i + 1)
  }

  predicate OpensLineComment(s: string) {
    |s| >= 2 && s[0] == '-' && s[1] == '-'
  }

  // The replace with the pattern `--.*`: from each `--` up to, not including, the end of its line.
  function StripLineComments(s: string): (r: string)
    decreases |s|
  {
    if s == [] then []
    else if OpensLineComment(s) then StripLineComments(s[LineEnd(s, 2)..])
    else [s[0]] + StripLineComments(s[1..])
  }

  /** `replace(/\r\n/g, '\n')`. */
  function NormalizeNewlines(s: string): (r: string)
    decreases |s|
  {
    if s == [] then []
    else if |s| >= 2 && s[0] == '\r' && s[1] == '\n' then "\n" + NormalizeNewlines(s[2..])
    else [s[0]] + NormalizeNewlines(s[1..])
  }

  /** The text every later scan of `parseSQL` works on. */
  function CleanSql(sql: string): string {
    NormalizeNewlines(StripLineComments(StripBlockComments(sql)))
  }

  /** No two consecutive `-` characters. */
  predicate NoDoubleDash(s: string) {
    forall i :: 0 <= i < |s| - 1 ==> !(s[i] == '-' && s[i + 1] == '-')
  }

  /** A `-` at the head of the stripped text is a lone `-` at the head of the input. */
  lemma {:induction false} StripLineCommentsHead(s: string)
    ensures var r := StripLineComments(s);
            r != [] && r[0] == '-' ==> s != [] && s[0] == '-' && !OpensLineComment(s)
    decreases |s|
  {
    if s != [] && OpensLineComment(s) {
      var j := LineEnd(s, 2);
      StripLineCommentsHead(s[j..]);
    }
  }

  lemma {:induction false} StripLineCommentsNoDoubleDash(s: string)
    ensures NoDoubleDash(StripLineComments(s))
    decreases |s|
  {
    if s == [] {
    } else if OpensLineComment(s) {
      StripLineCommentsNoDoubleDash(s[LineEnd(s, 2)..]);
    } else {
      var rest := StripLineComments(s[1..]);
      StripLineCommentsNoDoubleDash(s[1..]);
      StripLineCommentsHead(s[1..]);
      var r := [s[0]] + rest;
      forall i | 0 <= i < |r| - 1 ensures !(r[i] == '-' && r[i + 1] == '-') {
        if i > 0 { assert r[i] == rest[i - 1] && r[i + 1] == rest[i]; }
      }
    }
  }

  /** A `-` at the head of the normalized text is a `-` at the head of its input. */
  lemma {:induction false} NormalizeNewlinesHead(s: string)
    ensures var r := NormalizeNewlines(s); r != [] && r[0] == '-' ==> s != [] && s[0] == '-'
  {
  }

  lemma {:induction false} NormalizeNewlinesNoDoubleDash(s: string)
    requires NoDoubleDash(s)
    ensures NoDoubleDash(NormalizeNewlines(s))
    decreases |s|
  {
    if s == [] {
    } else {
      var k := if |s| >= 2 && s[0] == '\r' && s[1] == '\n' then 2 else 1;
      var t := s[k..];
      assert NoDoubleDash(t) by {
        forall i | 0 <= i < |t| - 1 ensures !(t[i] == '-' && t[i + 1] == '-') {
          assert t[i] == s[i + k] && t[i + 1] == s[i + k + 1];
        }
      }
      NormalizeNewlinesNoDoubleDash(t);
      NormalizeNewlinesHead(t);
      var rest := NormalizeNewlines(t);
      var r := NormalizeNewlines(s);
      assert r == (if k == 2 then "\n" else [s[0]]) + rest;
      forall i | 0 <= i < |r| - 1 ensures !(r[i] == '-' && r[i + 1] == '-') {
        if i > 0 { assert r[i] == rest[i - 1] && r[i + 1] == rest[i]; }
        else if k == 1 && s[0] == '-' && |t| > 0 { assert s[1] == t[0]; }
      }
    }
  }

  /** After the clean-up no `--` is left, so no line comment reaches the later scans. */
  lemma CleanSqlNoDoubleDash(sql: string)
    ensures NoDoubleDash(CleanSql(sql))
  {
    var stripped := StripLineComments(StripBlockComments(sql));
    StripLineCommentsNoDoubleDash(StripBlockComments(sql));
    NormalizeNewlinesNoDoubleDash(stripped);
  }
}
