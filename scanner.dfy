/** Splitting a multi-document YAML stream into documents (scanner.go).
    `SplitYAMLDocument` is the `bufio.SplitFunc` of the scanner; `Documents`
    is what the scanner yields once the whole stream has been read. */
module Scanner {
  import opened Common
  import opened GoStrings

  /** A document ends at a newline followed by three dashes. */
  const YamlSeparator: Bytes := "\n---"

  /** The result of a split function: how many bytes to consume, and the
      token if one was produced (`None` is Go's nil token). */
  datatype Split = Split(advance: nat, token: Option<Bytes>)

  /** `splitYAMLDocument`. */
  function SplitYAMLDocument(data: Bytes, atEOF: bool): (r: Split)
    ensures r.advance <= |data|
    ensures r.token.None? ==> r.advance == 0
    ensures r.token.Some? ==> 0 < r.advance && |r.token.value| <= r.advance
    ensures r.token.Some? ==> r.token.value == data[..|r.token.value|]
    ensures r.token.Some? ==> !Contains(r.token.value, YamlSeparator)
  {
    if atEOF && |data| == 0 then Split(0, None)
    else
      var sep := |YamlSeparator|;
      var i := Index(data, YamlSeparator);
      if i >= 0 then
        NothingBeforeFirst(data, YamlSeparator, i);
        var i := i + sep;
        var after := data[i..];
        if |after| == 0 then
          if atEOF then Split(|data|, Some(data[..|data| - sep])) else Split(0, None)
        else
          var j := IndexByte(after, '\n');
          if j >= 0 then Split(i + j + 1, Some(data[0..i - sep])) else Split(0, None)
      else if atEOF then Split(|data|, Some(data))
      else Split(0, None)
  }

  /** The bytes before the first occurrence of a pattern do not contain it. */
  lemma NothingBeforeFirst(data: Bytes, pat: Bytes, i: int)
    requires 0 <= i <= |data| && |pat| > 0
    requires forall j :: 0 <= j < i ==> !OccursAt(data, pat, j)
    ensures !Contains(data[..i], pat)
  {
    forall k | 0 <= k <= i - |pat| ensures !OccursAt(data[..i], pat, k) {
      assert data[..i][k..k + |pat|] == data[k..k + |pat|];
      assert !OccursAt(data, pat, k);
    }
  }

  /** The documents the scanner yields for a complete stream: the split
      function applied at end of input until it produces no token. */
  function Documents(data: Bytes): (docs: seq<Bytes>)
    ensures forall k :: 0 <= k < |docs| ==> !Contains(docs[k], YamlSeparator)
    decreases |data|
  {
    if |data| == 0 then []
    else
      var r := SplitYAMLDocument(data, true);
      match r.token
      case None => []
      case Some(t) => [t] + Documents(data[r.advance..])
  }

  // ---------------------------------------------------------------------
  // The cases of the split function

  /** At end of input with nothing left, the scanner stops. */
  lemma SplitAtEndOfInput()
    ensures SplitYAMLDocument([], true) == Split(0, None)
  {
  }

  /** A separator followed, somewhere later, by a newline: the token is
      everything before the separator and the rest of the separator line
      (the text after the dashes) is consumed and dropped. */
  lemma SplitAtSeparatorLine(data: Bytes, atEOF: bool)
    requires Index(data, YamlSeparator) >= 0
    requires '\n' in data[Index(data, YamlSeparator) + 4..]
    ensures var i := Index(data, YamlSeparator);
            var r := SplitYAMLDocument(data, atEOF);
            && r.token == Some(data[..i])
            && i + 4 < r.advance
            && data[r.advance - 1] == '\n'
            && '\n' !in data[i + 4..r.advance - 1]
  {
    var i := Index(data, YamlSeparator);
    var after := data[i + 4..];
    var j := IndexByte(after, '\n');
    assert data[i + 4..i + 4 + j + 1 - 1] == after[..j];
  }

  /** A separator that ends the data: at end of input it closes the last
      document and everything is consumed; otherwise more data is needed. */
  lemma SplitAtSeparatorAtEnd(data: Bytes, atEOF: bool)
    requires |data| >= 4 && Index(data, YamlSeparator) == |data| - 4
    ensures SplitYAMLDocument(data, atEOF)
            == if atEOF then Split(|data|, Some(data[..|data| - 4])) else Split(0, None)
  {
  }

  /** A separator with no newline after it yields nothing, even at end of
      input: the scanner then stops without returning the data before it. */
  lemma SplitAtUnterminatedSeparator(data: Bytes, atEOF: bool)
    requires Index(data, YamlSeparator) >= 0
    requires Index(data, YamlSeparator) + 4 < |data|
    requires '\n' !in data[Index(data, YamlSeparator) + 4..]
    ensures SplitYAMLDocument(data, atEOF) == Split(0, None)
  {
  }

  /** Without a separator, the final unterminated document is returned at
      end of input; before that, more data is requested. */
  lemma SplitWithoutSeparator(data: Bytes, atEOF: bool)
    requires !Contains(data, YamlSeparator)
    ensures SplitYAMLDocument(data, atEOF)
            == if atEOF && |data| > 0 then Split(|data|, Some(data)) else Split(0, None)
  {
  }

  /** Three dashes at byte 0 are not a separator: the pattern needs the
      newline in front of them, so a stream that starts with `---` and has
      no separator after it is one document, dashes included. */
  lemma LeadingDashesAreNotASeparator(rest: Bytes)
    requires !Contains(rest, YamlSeparator)
    ensures Documents("---" + rest) == ["---" + rest]
  {
    var data: Bytes := "---" + rest;
    forall k | 0 <= k <= |data| - 4 ensures !OccursAt(data, YamlSeparator, k) {
      if k < 3 {
        assert data[k] == '-';
        NotASeparatorAt(data, k);
      } else {
        assert data[k..k + 4] == rest[k - 3..k + 1];
        assert !OccursAt(rest, YamlSeparator, k - 3);
      }
    }
    SplitWithoutSeparator(data, true);
    assert data[|data|..] == [];
  }

  lemma NotASeparatorAt(data: Bytes, k: nat)
    requires k + 4 <= |data|
    requires data[k] != '\n' || data[k + 1] != '-'
    ensures !OccursAt(data, YamlSeparator, k)
  {
    assert data[k..k + 4][0] == data[k] && data[k..k + 4][1] == data[k + 1];
  }

  /** As written, a last separator line with text after the dashes and no
      final newline makes the scanner stop: the document before it is lost. */
  lemma TrailingSeparatorLineWithoutNewline()
    ensures Documents("a\n--- x") == []
  {
    var data: Bytes := "a\n--- x";
    NotASeparatorAt(data, 0);
    assert OccursAt(data, YamlSeparator, 1);
    IndexIsFirst(data, YamlSeparator, 1);
    assert data[5..] == " x";
    SplitAtUnterminatedSeparator(data, true);
  }

  // ---------------------------------------------------------------------
  // Streaming: a token found in a partial buffer is final

  lemma {:induction false} IndexExtends(data: Bytes, more: Bytes, pat: Bytes)
    requires Index(data, pat) >= 0
    ensures Index(data + more, pat) == Index(data, pat)
  {
    var i := Index(data, pat);
    assert (data + more)[i..i + |pat|] == data[i..i + |pat|];
    forall j | 0 <= j < i ensures !OccursAt(data + more, pat, j) {
      assert (data + more)[j..j + |pat|] == data[j..j + |pat|];
      assert !OccursAt(data, pat, j);
    }
    IndexIsFirst(data + more, pat, i);
  }

  lemma IndexIsFirst(s: Bytes, pat: Bytes, i: int)
    requires OccursAt(s, pat, i)
    requires forall j :: 0 <= j < i ==> !OccursAt(s, pat, j)
    ensures Index(s, pat) == i
  {
    var r := Index(s, pat);
    assert r != -1;
    assert OccursAt(s, pat, r);
  }

  lemma IndexByteExtends(s: Bytes, more: Bytes, c: char)
    requires IndexByte(s, c) >= 0
    ensures IndexByte(s + more, c) == IndexByte(s, c)
  {
    var j := IndexByte(s, c);
    var r := IndexByte(s + more, c);
    assert (s + more)[j] == c;
    assert (s + more)[..j] == s[..j];
  }

  /** When the split function returns a token before the end of input, more
      input does not change that token nor how much is consumed; so splitting
      the whole stream at end of input yields the tokens the scanner sees
      while it is still reading. */
  lemma {:induction false} SplitIsStable(data: Bytes, more: Bytes, atEOF: bool)
    requires SplitYAMLDocument(data, false).token.Some?
    ensures SplitYAMLDocument(data + more, atEOF) == SplitYAMLDocument(data, false)
  {
    var i := Index(data, YamlSeparator);
    IndexExtends(data, more, YamlSeparator);
    var after := data[i + 4..];
    assert (data + more)[i + 4..] == after + more;
    IndexByteExtends(after, more, '\n');
    assert (data + more)[0..i] == data[0..i];
  }

  // ---------------------------------------------------------------------
  // Joining documents is the inverse of splitting

  /** The stream that lists `docs` separated by `---` lines. */
  function Join(docs: seq<Bytes>): Bytes
    requires |docs| > 0
  {
    if |docs| == 1 then docs[0] else docs[0] + "\n---\n" + Join(docs[1..])
  }

  lemma SplitJoined(d: Bytes, rest: Bytes)
    requires !Contains(d, YamlSeparator)
    ensures SplitYAMLDocument(d + "\n---\n" + rest, true) == Split(|d| + 5, Some(d))
  {
    var data := d + "\n---\n" + rest;
    assert OccursAt(data, YamlSeparator, |d|);
    forall j | 0 <= j < |d| ensures !OccursAt(data, YamlSeparator, j) {
      if j + 4 <= |d| {
        assert data[j..j + 4] == d[j..j + 4];
        assert !OccursAt(d, YamlSeparator, j);
      } else {
        assert data[|d|] == '\n';
        assert data[j..j + 4][|d| - j] == '\n';
      }
    }
    IndexIsFirst(data, YamlSeparator, |d|);
    assert data[|d| + 4..] == "\n" + rest;
    assert data[0..|d|] == d;
  }

  /** Splitting a joined stream gives back its documents, provided no
      document contains a separator and the last one is not empty. */
  lemma {:induction false} DocumentsOfJoin(docs: seq<Bytes>)
    requires |docs| > 0 && docs[|docs| - 1] != []
    requires forall k :: 0 <= k < |docs| ==> !Contains(docs[k], YamlSeparator)
    ensures Documents(Join(docs)) == docs
  {
    var d := docs[0];
    if |docs| == 1 {
      assert SplitYAMLDocument(d, true) == Split(|d|, Some(d));
      assert d[|d|..] == [];
    } else {
      var rest := Join(docs[1..]);
      SplitJoined(d, rest);
      var data := d + "\n---\n" + rest;
      assert data[|d| + 5..] == rest;
      DocumentsOfJoin(docs[1..]);
    }
  }
}
