/**
 * Data URLs as the image service handles them: `fileToPart` splits a
 * `data:<mime>;base64,<payload>` URL into its MIME type and payload, and the
 * generated image is turned back into such a URL from the same two values.
 */
module DataUrl {
  import opened Wrappers

  /** The payload the remote model takes and returns: a MIME type and base64 data. */
  datatype InlineData = InlineData(mimeType: string, data: string)

  const InvalidDataUrl: string := "Invalid data URL"
  const MissingMimeType: string := "Could not parse MIME type from data URL"

  /** The position of the first `c` in `s`. */
  function FirstIndex(s: string, c: char): (i: nat)
    requires c in s
    ensures i < |s| && s[i] == c && forall k :: 0 <= k < i ==> s[k] != c
  {
    if s[0] == c then 0 else 1 + FirstIndex(s[1..], c)
  }

  /** `s.split(sep)` for a one-character separator: the pieces between separators, in order. */
  function Split(s: string, sep: char): (parts: seq<string>)
    ensures |parts| >= 1
    ensures |parts| == 1 <==> sep !in s
    ensures forall i :: 0 <= i < |parts| ==> sep !in parts[i]
    decreases |s|
  {
    if sep !in s then [s]
    else
      var i := FirstIndex(s, sep);
      [s[..i]] + Split(s[i + 1..], sep)
  }

  /** `parts.join(sep)`. */
  function Join(parts: seq<string>, sep: char): string
    requires |parts| >= 1
  {
    if |parts| == 1 then parts[0] else parts[0] + [sep] + Join(parts[1..], sep)
  }

  /** Joining the pieces with the separator gives the string back. */
  lemma {:induction false} JoinSplit(s: string, sep: char)
    ensures Join(Split(s, sep), sep) == s
    decreases |s|
  {
    if sep in s {
      var i := FirstIndex(s, sep);
      var rest := Split(s[i + 1..], sep);
      JoinSplit(s[i + 1..], sep);
      assert ([s[..i]] + rest)[1..] == rest;
      Around(s, i);
    }
  }

  lemma Around(s: string, i: nat)
    requires i < |s|
    ensures s == s[..i] + [s[i]] + s[i + 1..]
  {
    assert s[i..] == [s[i]] + s[i + 1..];
    assert s == s[..i] + s[i..];
  }

  /** Splitting a string with exactly one separator gives the two sides. */
  lemma SplitOnce(a: string, b: string, sep: char)
    requires sep !in a && sep !in b
    ensures Split(a + [sep] + b, sep) == [a, b]
  {
    var s := a + [sep] + b;
    assert s[|a|] == sep;
    assert forall k :: 0 <= k < |a| ==> s[k] == a[k];
    var i := FirstIndex(s, sep);
    assert i == |a|;
    assert s[..i] == a && s[i + 1..] == b;
  }

  /** The characters JavaScript's `.` does not match. */
  predicate IsLineTerminator(c: char)
  {
    c == '\n' || c == '\r' || c == '\U{2028}' || c == '\U{2029}'
  }

  /**
   * The lazy group `(.*?);` tried at position `start`: the text up to the
   * first `;`, failing at a line terminator or at the end of the string.
   */
  function LazyUntilSemicolon(s: string, start: nat): (m: Option<string>)
    requires start <= |s|
    ensures m.Some? ==> var e := start + |m.value|;
              e < |s| && s[start..e] == m.value && s[e] == ';'
              && forall k :: start <= k < e ==> s[k] != ';' && !IsLineTerminator(s[k])
    decreases |s| - start
  {
    if start == |s| || IsLineTerminator(s[start]) then None
    else if s[start] == ';' then Some([])
    else
      match LazyUntilSemicolon(s, start + 1)
      case None => None
      case Some(rest) => Some([s[start]] + rest)
  }

  /**
   * `s.match(/:(.*?);/)` from position `from` on: the group of the leftmost
   * `:` at which the lazy group succeeds.
   */
  function MatchMime(s: string, from: nat): (m: Option<string>)
    requires from <= |s|
    decreases |s| - from
  {
    if from == |s| then None
    else if s[from] == ':' && LazyUntilSemicolon(s, from + 1).Some? then LazyUntilSemicolon(s, from + 1)
    else MatchMime(s, from + 1)
  }

  /** No `:` in [from, upTo) of `s` is followed by a successful lazy group. */
  predicate NoMatchBetween(s: string, from: nat, upTo: nat)
    requires from <= upTo <= |s|
  {
    forall j :: from <= j < upTo && s[j] == ':' ==> LazyUntilSemicolon(s, j + 1).None?
  }

  /** A position where the group fails can be added in front of a stretch without a match. */
  lemma NoMatchExtends(s: string, from: nat, upTo: nat)
    requires from < upTo <= |s| && NoMatchBetween(s, from + 1, upTo)
    requires !(s[from] == ':' && LazyUntilSemicolon(s, from + 1).Some?)
    ensures NoMatchBetween(s, from, upTo)
  {
  }

  /**
   * A match is the group at some `:` and no earlier `:` gives one; with no
   * match, no `:` gives one.
   */
  lemma {:induction false} MatchMimeIsLeftmost(s: string, from: nat)
    requires from <= |s|
    ensures MatchMime(s, from).Some? ==>
              exists i :: from <= i < |s| && s[i] == ':' && LazyUntilSemicolon(s, i + 1) == MatchMime(s, from)
                && NoMatchBetween(s, from, i)
    ensures MatchMime(s, from).None? ==> NoMatchBetween(s, from, |s|)
    decreases |s| - from
  {
    if from == |s| {
    } else if s[from] == ':' && LazyUntilSemicolon(s, from + 1).Some? {
      assert MatchMime(s, from) == LazyUntilSemicolon(s, from + 1);
      assert NoMatchBetween(s, from, from);
    } else {
      assert MatchMime(s, from) == MatchMime(s, from + 1);
      MatchMimeIsLeftmost(s, from + 1);
      if MatchMime(s, from).Some? {
        var i :| from + 1 <= i < |s| && s[i] == ':' && LazyUntilSemicolon(s, i + 1) == MatchMime(s, from + 1)
                 && NoMatchBetween(s, from + 1, i);
        NoMatchExtends(s, from, i);
      } else {
        NoMatchExtends(s, from, |s|);
      }
    }
  }

  /** The MIME type and payload of a data URL, as `fileToPart` reads them. */
  function FileToPart(dataUrl: string): (r: Result<InlineData, string>)
    ensures r.Err? <==> ',' !in dataUrl || MatchMime(Split(dataUrl, ',')[0], 0) in {None, Some([])}
    ensures r.Err? ==> r.error == (if ',' !in dataUrl then InvalidDataUrl else MissingMimeType)
    ensures r.Ok? ==> r.value.mimeType != [] && ';' !in r.value.mimeType && ',' !in r.value.data
  {
    var arr := Split(dataUrl, ',');
    if |arr| < 2 then Err(InvalidDataUrl)
    else
      var mimeMatch := MatchMime(arr[0], 0);
      if mimeMatch.None? || mimeMatch.value == [] then Err(MissingMimeType)
      else
        MatchMimeIsLeftmost(arr[0], 0);
        Ok(InlineData(mimeMatch.value, arr[1]))
  }

  /** `data:${mimeType};base64,${data}`: the URL made from a returned image part. */
  function InlineImageUrl(part: InlineData): string
  {
    "data:" + part.mimeType + ";base64," + part.data
  }

  /** A MIME type that survives the round trip: non-empty, no `,` or `;`, no line terminator. */
  predicate PlainMimeType(mime: string)
  {
    mime != [] && ',' !in mime && ';' !in mime && forall k :: 0 <= k < |mime| ==> !IsLineTerminator(mime[k])
  }

  /** The lazy group reads up to the `;` that ends a run free of `;` and line terminators. */
  lemma {:induction false} LazyReadsRun(x: string, y: string, start: nat)
    requires start <= |x|
    requires forall k :: start <= k < |x| ==> x[k] != ';' && !IsLineTerminator(x[k])
    ensures LazyUntilSemicolon(x + [';'] + y, start) == Some(x[start..])
    decreases |x| - start
  {
    var s := x + [';'] + y;
    if start < |x| {
      assert s[start] == x[start];
      LazyReadsRun(x, y, start + 1);
      assert x[start..] == [x[start]] + x[start + 1..];
    } else {
      assert s[start] == ';';
    }
  }

  /**
   * Reading back a URL built from a MIME type and a base64 payload gives the
   * same two values: `fileToPart` undoes `data:${mimeType};base64,${data}`.
   */
  lemma FileToPartInvertsUrl(part: InlineData)
    requires PlainMimeType(part.mimeType) && ',' !in part.data
    ensures FileToPart(InlineImageUrl(part)) == Ok(part)
  {
    var head := UrlHead(part.mimeType);
    UrlHeadReadsMime(part.mimeType);
    assert InlineImageUrl(part) == head + [','] + part.data;
    SplitOnce(head, part.data, ',');
  }

  /** The part of the URL before the `,`. */
  function UrlHead(mime: string): string
  {
    "data:" + mime + [';'] + "base64"
  }

  /** The URL head has no `,`, and the MIME match reads the type back from it. */
  lemma UrlHeadReadsMime(mime: string)
    requires PlainMimeType(mime)
    ensures ',' !in UrlHead(mime)
    ensures MatchMime(UrlHead(mime), 0) == Some(mime)
  {
    var x := "data:" + mime;
    var head := UrlHead(mime);
    assert head == x + [';'] + "base64";
    assert forall k :: 0 <= k < |mime| ==> x[5 + k] == mime[k];
    assert ',' !in head by {
      assert forall k :: 0 <= k < |head| && head[k] == ',' ==> 5 <= k < 5 + |mime| && mime[k - 5] == ',';
    }
    LazyReadsRun(x, "base64", 5);
    assert x[5..] == mime;
    assert head[4] == ':';
    assert MatchMime(head, 3) == MatchMime(head, 4) == Some(mime);
    assert MatchMime(head, 1) == MatchMime(head, 2) == MatchMime(head, 3);
    assert MatchMime(head, 0) == MatchMime(head, 1);
  }
}
