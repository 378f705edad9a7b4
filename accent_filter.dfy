/**
 * The accent filter script: it reads words from its arguments (or, when there are
 * none, from piped standard input), strips each one and prints those that contain
 * an accented vowel, in input order.
 */
module AccentFilter {
  import opened Text

  /** The ten accented vowels the filter looks for; ü and ñ are not among them. */
  const Accents: seq<char> := [
    '\U{E1}', '\U{E9}', '\U{ED}', '\U{F3}', '\U{FA}',  // á é í ó ú
    '\U{C1}', '\U{C9}', '\U{CD}', '\U{D3}', '\U{DA}'   // Á É Í Ó Ú
  ]

  /** The message written to standard error when there is nothing to read. */
  const NoInputMessage: string :=
    "No input provided or piped. Please provide input as arguments or pipe it in."

  /** `filter_accent`: whether any character of `item` is one of the accented vowels. */
  function FilterAccent(item: string): bool {
    |item| > 0 && (item[0] in Accents || FilterAccent(item[1..]))
  }

  /** Some character of `item` is an accented vowel. */
  ghost predicate HasAccent(item: string) {
    exists i :: 0 <= i < |item| && item[i] in Accents
  }

  /** `filter_accent` holds exactly when some character is an accented vowel. */
  lemma {:induction false} FilterAccentMeans(item: string)
    ensures FilterAccent(item) <==> HasAccent(item)
  {
    if |item| > 0 {
      FilterAccentMeans(item[1..]);
      if HasAccent(item[1..]) {
        var i :| 0 <= i < |item[1..]| && item[1..][i] in Accents;
        assert item[i + 1] in Accents;
      }
      if HasAccent(item) && item[0] !in Accents {
        var i :| 0 <= i < |item| && item[i] in Accents;
        assert item[1..][i - 1] in Accents;
      }
    }
  }

  /** Accents in a concatenation are the accents of either part. */
  lemma FilterAccentConcat(a: string, b: string)
    ensures FilterAccent(a + b) == (FilterAccent(a) || FilterAccent(b))
  {
    FilterAccentMeans(a);
    FilterAccentMeans(b);
    FilterAccentMeans(a + b);
    if HasAccent(a) {
      var i :| 0 <= i < |a| && a[i] in Accents;
      assert (a + b)[i] == a[i];
    }
    if HasAccent(b) {
      var i :| 0 <= i < |b| && b[i] in Accents;
      assert (a + b)[|a| + i] == b[i];
    }
    if HasAccent(a + b) {
      var i :| 0 <= i < |a + b| && (a + b)[i] in Accents;
      if i < |a| {
        assert a[i] == (a + b)[i];
      } else {
        assert b[i - |a|] == (a + b)[i];
      }
    }
  }

  /**
   * What the filter prints for a list of input items: the stripped items that
   * contain an accented vowel, in input order.
   */
  function Selected(items: seq<string>): (r: seq<string>)
    ensures |r| <= |items|
    ensures forall k :: 0 <= k < |r| ==> IsStripped(r[k]) && FilterAccent(r[k])
  {
    if items == [] then []
    else
      var rest := Selected(items[..|items| - 1]);
      var s := Strip(items[|items| - 1]);
      if FilterAccent(s) then rest + [s] else rest
  }

  /** Filtering a concatenation filters the parts and keeps their order. */
  lemma {:induction false} SelectedConcat(a: seq<string>, b: seq<string>)
    ensures Selected(a + b) == Selected(a) + Selected(b)
  {
    if b == [] {
      assert a + b == a;
    } else {
      var b' := b[..|b| - 1];
      assert (a + b)[..|a + b| - 1] == a + b';
      assert (a + b)[|a + b| - 1] == b[|b| - 1];
      SelectedConcat(a, b');
    }
  }

  /** A string is printed exactly when it is the stripped form of some item and has an accent. */
  lemma {:induction false} SelectedMembers(items: seq<string>, s: string)
    ensures s in Selected(items) <==> exists i :: 0 <= i < |items| && s == Strip(items[i]) && FilterAccent(s)
  {
    if items != [] {
      var m := |items| - 1;
      var init := items[..m];
      var last := Strip(items[m]);
      SelectedMembers(init, s);
      assert Selected(items) == Selected(init) + (if FilterAccent(last) then [last] else []);
      if s in Selected(items) {
        if s in Selected(init) {
          var i :| 0 <= i < |init| && s == Strip(init[i]) && FilterAccent(s);
          assert init[i] == items[i];
        } else {
          assert s == Strip(items[m]) && FilterAccent(s);
        }
      }
      if exists i :: 0 <= i < |items| && s == Strip(items[i]) && FilterAccent(s) {
        var i :| 0 <= i < |items| && s == Strip(items[i]) && FilterAccent(s);
        if i < m {
          assert init[i] == items[i];
          assert s in Selected(init);
        } else {
          assert i == m;
          assert s in Selected(items);
        }
      }
    }
  }

  /**
   * `main`: arguments take precedence over standard input; standard input is read
   * only when it is not a terminal; with neither, only the error message is written.
   */
  method Run(args: seq<string>, stdinIsTty: bool, stdinLines: seq<string>)
    returns (stdout: seq<string>, stderr: seq<string>)
    ensures |args| > 0 ==> stdout == Selected(args) && stderr == []
    ensures |args| == 0 && !stdinIsTty ==> stdout == Selected(stdinLines) && stderr == []
    ensures |args| == 0 && stdinIsTty ==> stdout == [] && stderr == [NoInputMessage]
  {
    stdout, stderr := [], [];
    if |args| > 0 || !stdinIsTty {
      var items := if |args| > 0 then args else stdinLines;
      var i := 0;
      while i < |items|
        invariant i <= |items|
        invariant stdout == Selected(items[..i])
      {
        assert items[..i + 1][..i] == items[..i];
        var item := Strip(items[i]);
        if FilterAccent(item) {
          stdout := stdout + [item];
        }
        i := i + 1;
      }
      assert items[..|items|] == items;
    } else {
      stderr := [NoInputMessage];
    }
  }
}
