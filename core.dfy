/** Values shared by every component: optional values, the JSON values the
    remote services answer with, JavaScript truthiness of the values the
    library tests with `if (x)` or `x || y`, and the string operations the
    library's messages are built with. */
module Core {

  /** `undefined` (None) or a present value (Some). */
  datatype Option<+T> = None | Some(value: T)

  /** A decoded JSON value, as found in a remote response body. */
  datatype Json =
    | JNull
    | JBool(b: bool)
    | JNum(n: real)
    | JStr(s: string)
    | JArr(items: seq<Json>)
    | JObj(fields: map<string, Json>)

  /** JavaScript truthiness of a JSON value (NaN is not modelled). */
  predicate JsonTruthy(j: Json) {
    match j
    case JNull => false
    case JBool(b) => b
    case JNum(n) => n != 0.0
    case JStr(s) => s != ""
    case JArr(_) => true
    case JObj(_) => true
  }

  /** Truthiness of an optional string: `undefined` and '' are falsy. */
  predicate TextTruthy(s: Option<string>) {
    s.Some? && s.value != ""
  }

  /** `needle` occurs in `hay` starting at index `at`. */
  predicate OccursAt(hay: string, needle: string, at: nat) {
    at + |needle| <= |hay| && hay[at..at + |needle|] == needle
  }

  /** JavaScript's `String.prototype.includes`. */
  ghost predicate Includes(hay: string, needle: string) {
    exists at: nat :: OccursAt(hay, needle, at)
  }

  /** `${x}` of an optional string: `undefined` prints as "undefined". */
  function Interpolate(s: Option<string>): string {
    match s
    case None => "undefined"
    case Some(t) => t
  }

  /** JavaScript's `Array.prototype.join` over strings. */
  function Join(parts: seq<string>, sep: string): string
    decreases |parts|
  {
    if |parts| == 0 then ""
    else if |parts| == 1 then parts[0]
    else parts[0] + sep + Join(parts[1..], sep)
  }

  /** Index at which the `i`-th part starts in `Join(parts, sep)`. */
  function JoinOffset(parts: seq<string>, sep: string, i: nat): nat
    requires i < |parts|
    decreases i
  {
    if i == 0 then 0 else |parts[0]| + |sep| + JoinOffset(parts[1..], sep, i - 1)
  }

  /** Every part appears in the joined string at its offset. */
  lemma {:induction false} JoinPlacesPart(parts: seq<string>, sep: string, i: nat)
    requires i < |parts|
    ensures OccursAt(Join(parts, sep), parts[i], JoinOffset(parts, sep, i))
    decreases i
  {
    if |parts| == 1 {
      assert Join(parts, sep) == parts[0];
    } else {
      var rest := Join(parts[1..], sep);
      assert Join(parts, sep) == parts[0] + sep + rest;
      if i == 0 {
        assert (parts[0] + sep + rest)[..|parts[0]|] == parts[0];
      } else {
        JoinPlacesPart(parts[1..], sep, i - 1);
        var k := |parts[0]| + |sep|;
        var o := JoinOffset(parts[1..], sep, i - 1);
        assert parts[1..][i - 1] == parts[i];
        assert (parts[0] + sep + rest)[k + o..k + o + |parts[i]|] == rest[o..o + |parts[i]|];
      }
    }
  }

  /** Between two consecutive parts the joined string holds exactly the
      separator, so the parts appear in the order given. */
  lemma {:induction false} JoinPlacesSeparator(parts: seq<string>, sep: string, i: nat)
    requires i + 1 < |parts|
    ensures JoinOffset(parts, sep, i + 1) == JoinOffset(parts, sep, i) + |parts[i]| + |sep|
    ensures OccursAt(Join(parts, sep), sep, JoinOffset(parts, sep, i) + |parts[i]|)
    decreases i
  {
    var rest := Join(parts[1..], sep);
    assert Join(parts, sep) == parts[0] + sep + rest;
    if i == 0 {
      assert JoinOffset(parts[1..], sep, 0) == 0;
      assert (parts[0] + sep + rest)[|parts[0]|..|parts[0]| + |sep|] == sep;
    } else {
      JoinPlacesSeparator(parts[1..], sep, i - 1);
      assert parts[1..][i - 1] == parts[i];
      var k := |parts[0]| + |sep|;
      var o := JoinOffset(parts[1..], sep, i - 1) + |parts[i]|;
      JoinLength(parts[1..], sep);
      JoinOffsetBound(parts[1..], sep, i);
      assert (parts[0] + sep + rest)[k + o..k + o + |sep|] == rest[o..o + |sep|];
    }
  }

  /** The joined string ends where the last part ends. */
  lemma {:induction false} JoinLength(parts: seq<string>, sep: string)
    requires |parts| > 0
    ensures |Join(parts, sep)| == JoinOffset(parts, sep, |parts| - 1) + |parts[|parts| - 1]|
    decreases |parts|
  {
    if |parts| > 1 {
      JoinLength(parts[1..], sep);
      assert parts[1..][|parts| - 2] == parts[|parts| - 1];
    }
  }

  /** A part's offset leaves room for the part and the ones after it. */
  lemma {:induction false} JoinOffsetBound(parts: seq<string>, sep: string, i: nat)
    requires i < |parts|
    ensures JoinOffset(parts, sep, i) + |parts[i]| <= |Join(parts, sep)|
    decreases i
  {
    JoinPlacesPart(parts, sep, i);
  }

  /** The separator and the next part follow each part directly. */
  lemma JoinPlacesNextPart(parts: seq<string>, sep: string, i: nat)
    requires i + 1 < |parts|
    ensures OccursAt(Join(parts, sep), sep + parts[i + 1], JoinOffset(parts, sep, i) + |parts[i]|)
  {
    var j := Join(parts, sep);
    var s := JoinOffset(parts, sep, i) + |parts[i]|;
    JoinPlacesSeparator(parts, sep, i);
    JoinPlacesPart(parts, sep, i + 1);
    assert j[s..s + |sep| + |parts[i + 1]|] == j[s..s + |sep|] + j[s + |sep|..s + |sep| + |parts[i + 1]|];
  }

  /** An occurrence inside `mid` is an occurrence in `pre + mid + post`. */
  lemma OccursInside(pre: string, mid: string, post: string, needle: string, at: nat)
    requires OccursAt(mid, needle, at)
    ensures OccursAt(pre + mid + post, needle, |pre| + at)
  {
    var whole := pre + mid + post;
    assert whole[|pre| + at..|pre| + at + |needle|] == mid[at..at + |needle|];
  }
}
