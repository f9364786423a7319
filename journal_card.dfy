/**
 * The journal list card: the title fallback, the message badge, and the
 * preview text, which is the content with every match of the regular
 * expression `/<[^>]*>/g` removed and then cut to 100 characters.
 *
 * `StripTags` follows the global replace: scanning left to right, a `<`
 * that has a `>` somewhere after it starts a match that ends at the first
 * such `>`; a `<` with no `>` after it is kept, and the scan goes on.
 */
module JournalCard {
  import opened Wrappers
  import opened Text
  import opened Storage

  const UntitledTitle: string := "无标题"
  const PreviewLength: nat := 100
  const BadgeSuffix: string := " 条对话"

  /** The first position of `c` in `s`. */
  function IndexOf(s: string, c: char): (k: nat)
    requires c in s
    ensures k < |s| && s[k] == c && c !in s[..k]
  {
    if s[0] == c then 0
    else
      assert c in s[1..] by { var i :| 0 <= i < |s| && s[i] == c; assert s[1..][i - 1] == c; }
      var k := 1 + IndexOf(s[1..], c);
      assert s[..k] == [s[0]] + s[1..][..k - 1];
      k
  }

  /** `s.replace(/<[^>]*>/g, '')`. */
  function StripTags(s: string): (r: string)
    ensures |r| <= |s|
    ensures forall k :: 0 <= k < |r| ==> r[k] in s
    decreases |s|
  {
    if s == [] then []
    else if s[0] == '<' && '>' in s[1..] then
      var rest := s[1 + IndexOf(s[1..], '>') + 1..];
      var r := StripTags(rest);
      assert forall k :: 0 <= k < |r| ==> r[k] in s by {
        forall k | 0 <= k < |r| ensures r[k] in s {
          var i :| 0 <= i < |rest| && rest[i] == r[k];
          assert s[1 + IndexOf(s[1..], '>') + 1 + i] == r[k];
        }
      }
      r
    else
      var r := StripTags(s[1..]);
      assert forall k :: 0 <= k < |r| ==> r[k] in s by {
        forall k | 0 <= k < |r| ensures r[k] in s {
          var i :| 0 <= i < |s[1..]| && s[1..][i] == r[k];
          assert s[1 + i] == r[k];
        }
      }
      [s[0]] + r
  }

  /** Text with nothing the pattern matches is left as it is. */
  lemma {:induction false} StripTagsKeepsUntagged(s: string)
    requires NoTag(s)
    ensures StripTags(s) == s
  {
    if s != [] {
      if s[0] == '<' {
        assert '>' !in s[1..] by {
          forall k | 0 <= k < |s[1..]| ensures s[1..][k] != '>' { assert s[1..][k] == s[k + 1]; }
        }
      }
      assert NoTag(s[1..]) by {
        forall i, j | 0 <= i < j < |s[1..]| && s[1..][i] == '<' ensures s[1..][j] != '>' {
          assert s[1..][i] == s[i + 1] && s[1..][j] == s[j + 1];
        }
      }
      StripTagsKeepsUntagged(s[1..]);
      assert s == [s[0]] + s[1..];
    }
  }

  /** Text before the first `<` is kept as it is. */
  lemma {:induction false} StripTagsKeepsPlainPrefix(u: string, w: string)
    requires '<' !in u
    ensures StripTags(u + w) == u + StripTags(w)
  {
    if u != [] {
      assert (u + w)[0] == u[0] && (u + w)[1..] == u[1..] + w;
      assert '<' !in u[1..] by {
        forall k | 0 <= k < |u[1..]| ensures u[1..][k] != '<' { assert u[1..][k] == u[k + 1]; }
      }
      StripTagsKeepsPlainPrefix(u[1..], w);
      assert StripTags(u + w) == [u[0]] + StripTags(u[1..] + w);
      assert u == [u[0]] + u[1..];
    } else {
      assert u + w == w;
    }
  }

  /** The position `IndexOf` finds is the only holding position with no earlier match. */
  lemma IndexOfIs(s: string, c: char, j: nat)
    requires j < |s| && s[j] == c && c !in s[..j]
    ensures IndexOf(s, c) == j
  {
    var k := IndexOf(s, c);
    if j < k {
      assert false;
    }
    if k < j {
      assert false;
    }
  }

  /** A `<`, text without `>`, and the `>` after it form one match, which is removed. */
  lemma StripTagsRemovesTag(x: string, v: string)
    requires '>' !in x
    ensures StripTags(['<'] + x + ['>'] + v) == StripTags(v)
  {
    var s := ['<'] + x + ['>'] + v;
    assert s[1..] == x + ['>'] + v;
    assert s[1..][..|x|] == x;
    IndexOfIs(s[1..], '>', |x|);
    assert s[1 + |x| + 1..] == v;
  }

  /** A `<` with no `>` anywhere after it is kept, and the scan goes on after it. */
  lemma StripTagsKeepsUnclosed(w: string)
    requires '>' !in w
    ensures StripTags(['<'] + w) == ['<'] + StripTags(w)
  {
    assert (['<'] + w)[1..] == w;
  }

  /**
   * Together: between two matches, the text is kept. `u` with no `<`, the
   * match `<x>`, then the rest.
   */
  lemma StripTagsKeepsOutsideMatches(u: string, x: string, v: string)
    requires '<' !in u && '>' !in x
    ensures StripTags(u + ['<'] + x + ['>'] + v) == u + StripTags(v)
  {
    assert u + ['<'] + x + ['>'] + v == u + (['<'] + x + ['>'] + v);
    StripTagsKeepsPlainPrefix(u, ['<'] + x + ['>'] + v);
    StripTagsRemovesTag(x, v);
  }

  /** No `<` in `r` is followed anywhere later by a `>`: nothing the pattern could match. */
  predicate NoTag(r: string)
  {
    forall i, j :: 0 <= i < j < |r| && r[i] == '<' ==> r[j] != '>'
  }

  /** After stripping, no `<` is followed anywhere later by a `>`. */
  lemma {:induction false} NoTagRemains(s: string)
    ensures NoTag(StripTags(s))
  {
    if s == [] {
    } else if s[0] == '<' && '>' in s[1..] {
      var rest := s[1 + IndexOf(s[1..], '>') + 1..];
      assert StripTags(s) == StripTags(rest);
      NoTagRemains(rest);
    } else {
      NoTagRemains(s[1..]);
      ConsNoTag(s[0], StripTags(s[1..]), s[1..]);
      assert StripTags(s) == [s[0]] + StripTags(s[1..]);
    }
  }

  /** A kept character in front of a stripped tail leaves nothing to match. */
  lemma ConsNoTag(c: char, tail: string, source: string)
    requires NoTag(tail)
    requires forall k :: 0 <= k < |tail| ==> tail[k] in source
    requires c == '<' ==> '>' !in source
    ensures NoTag([c] + tail)
  {
    var r := [c] + tail;
    forall i, j | 0 <= i < j < |r| && r[i] == '<' ensures r[j] != '>' {
      assert r[j] == tail[j - 1];
      if i == 0 {
        assert tail[j - 1] in source;
      } else {
        assert r[i] == tail[i - 1];
      }
    }
  }

  /**
   * Stripping changes a text exactly when the text holds a `<` with a `>`
   * somewhere after it; in particular text without `<` is unchanged.
   */
  lemma StripTagsFixedPoints(s: string)
    ensures StripTags(s) == s <==> NoTag(s)
    ensures '<' !in s ==> StripTags(s) == s
  {
    if NoTag(s) {
      StripTagsKeepsUntagged(s);
    } else {
      NoTagRemains(s);
    }
  }

  /** The title shown: the entry's title, or `无标题` when it is empty. */
  function DisplayTitle(journal: JournalEntry): (t: string)
    ensures journal.title != "" ==> t == journal.title
    ensures journal.title == "" ==> t == UntitledTitle
  {
    OrElse(journal.title, UntitledTitle)
  }

  /** `journal.messages && journal.messages.length > 0`. */
  predicate HasMessages(journal: JournalEntry)
    ensures HasMessages(journal) <==> journal.messages != []
  {
    |journal.messages| > 0
  }

  /** The message badge: `${journal.messages.length} 条对话`, rendered only when `hasMessages`. */
  function MessageBadge(journal: JournalEntry): (b: Option<string>)
    ensures b.Some? <==> HasMessages(journal)
    ensures b.Some? ==> EndsWith(b.value, BadgeSuffix) && b.value[..|b.value| - |BadgeSuffix|] == Decimal(|journal.messages|)
  {
    if HasMessages(journal) then
      var text := Decimal(|journal.messages|) + BadgeSuffix;
      assert text[|text| - |BadgeSuffix|..] == BadgeSuffix;
      assert text[..|text| - |BadgeSuffix|] == Decimal(|journal.messages|);
      Some(text)
    else None
  }

  /** The preview line: the stripped content cut to 100 characters, then a literal `...`. */
  function Preview(journal: JournalEntry): (p: string)
    ensures |p| <= PreviewLength + 3 && EndsWith(p, "...")
    ensures p[..|p| - 3] <= StripTags(journal.content)
    ensures |p| - 3 == if |StripTags(journal.content)| <= PreviewLength then |StripTags(journal.content)| else PreviewLength
  {
    var body := Take(StripTags(journal.content), PreviewLength);
    assert (body + "...")[|body|..] == "...";
    body + "..."
  }

  /** For content without tags, the preview is a prefix of the content followed by `...`. */
  lemma PreviewOfPlainText(journal: JournalEntry)
    requires '<' !in journal.content
    ensures var p := Preview(journal);
      p[..|p| - 3] <= journal.content
      && |p| - 3 == if |journal.content| <= PreviewLength then |journal.content| else PreviewLength
  {
    StripTagsFixedPoints(journal.content);
  }
}
