/**
 * The attachment codec of `Utils`: the byte-pair run-length encoding
 * (`rleCompress` / `rleDecompress`) and the data-URL wrappers that apply it
 * (`compressToBase64` / `decompressFromBase64`).
 *
 * A binary string whose characters are all byte-valued is a `seq<Byte>`.
 * Base64 (section 4 of RFC 4648) is not modelled: `atob` and `btoa` are
 * parameters, with `atob` returning `None` where the browser throws.
 */
module Rle {
  import opened Wrappers

  /** A character code of a binary string, or an element of a `Uint8Array`. */
  type Byte = x: int | 0 <= x < 256

  // ---------------------------------------------------------------------
  // Specification of the encoding
  // ---------------------------------------------------------------------

  /** Extends a run of `s[0]` that already has length `k`. */
  function RunFrom(s: seq<Byte>, k: nat): (n: nat)
    requires 1 <= k <= |s| && k <= 255
    requires forall j :: 0 <= j < k ==> s[j] == s[0]
    ensures k <= n <= |s| && n <= 255
    ensures forall j :: 0 <= j < n ==> s[j] == s[0]
    ensures n == |s| || n == 255 || s[n] != s[0]
    decreases |s| - k
  {
    if k == |s| || k == 255 || s[k] != s[0] then k else RunFrom(s, k + 1)
  }

  /** The length of the run `rleCompress` emits first: the leading equal bytes, capped at 255. */
  function RunLength(s: seq<Byte>): (n: nat)
    requires |s| > 0
    ensures 1 <= n <= |s| && n <= 255
    ensures forall j :: 0 <= j < n ==> s[j] == s[0]
    ensures n == |s| || n == 255 || s[n] != s[0]
  {
    RunFrom(s, 1)
  }

  /** The three facts about a run length determine it. */
  lemma RunLengthUnique(s: seq<Byte>, n: nat)
    requires 1 <= n <= |s| && n <= 255
    requires forall j :: 0 <= j < n ==> s[j] == s[0]
    requires n == |s| || n == 255 || s[n] != s[0]
    ensures n == RunLength(s)
  {
  }

  /** The encoding: one (byte, count) pair per maximal run of at most 255 equal bytes. */
  function RleEncode(s: seq<Byte>): seq<Byte>
    decreases |s|
  {
    if |s| == 0 then []
    else var n := RunLength(s); [s[0], n] + RleEncode(s[n..])
  }

  /** `char.repeat(count)`. */
  function Repeat(b: Byte, count: nat): (r: seq<Byte>)
    ensures |r| == count
    ensures forall j :: 0 <= j < count ==> r[j] == b
  {
    seq(count, _ => b)
  }

  /** The decoding: each (byte, count) pair expands to `count` copies; a trailing odd byte expands to nothing. */
  function RleDecode(b: seq<Byte>): seq<Byte>
    decreases |b|
  {
    if |b| < 2 then [] else Repeat(b[0], b[1]) + RleDecode(b[2..])
  }

  // ---------------------------------------------------------------------
  // Properties of the encoding
  // ---------------------------------------------------------------------

  /** Decoding undoes encoding for every byte string. */
  lemma {:induction false} RleRoundTrip(s: seq<Byte>)
    ensures RleDecode(RleEncode(s)) == s
    decreases |s|
  {
    if |s| > 0 {
      var n := RunLength(s);
      var rest := RleEncode(s[n..]);
      assert RleEncode(s) == [s[0], n] + rest;
      DecodePair(s[0], n, rest);
      RleRoundTrip(s[n..]);
      RunThenRest(s);
    }
  }

  /** A byte string is its first run followed by what comes after it. */
  lemma RunThenRest(s: seq<Byte>)
    requires |s| > 0
    ensures s == Repeat(s[0], RunLength(s)) + s[RunLength(s)..]
  {
    var n := RunLength(s);
    assert Repeat(s[0], n) == s[..n];
    assert s == s[..n] + s[n..];
  }

  /** Decoding a leading (byte, count) pair expands it and decodes the rest. */
  lemma DecodePair(b: Byte, count: Byte, rest: seq<Byte>)
    ensures RleDecode([b, count] + rest) == Repeat(b, count) + RleDecode(rest)
  {
    assert ([b, count] + rest)[2..] == rest;
  }

  /**
   * The encoding has even length, alternates byte and count with every count
   * in 1..255, and is empty exactly for the empty input.
   */
  lemma {:induction false} RleEncodeShape(s: seq<Byte>)
    ensures |RleEncode(s)| % 2 == 0
    ensures forall j :: 0 <= j < |RleEncode(s)| / 2 ==> 1 <= RleEncode(s)[2 * j + 1] <= 255
    ensures RleEncode(s) == [] <==> s == []
    ensures |RleEncode(s)| <= 2 * |s|
    decreases |s|
  {
    if |s| > 0 {
      var n := RunLength(s);
      var rest := RleEncode(s[n..]);
      RleEncodeShape(s[n..]);
      var e := RleEncode(s);
      assert e == [s[0], n] + rest;
      forall j | 0 <= j < |e| / 2 ensures 1 <= e[2 * j + 1] <= 255 {
        if j > 0 {
          assert e[2 * j + 1] == rest[2 * (j - 1) + 1];
        }
      }
    }
  }

  /** Each pair of the encoding stands for a run of its byte: the first pair covers `s[..RunLength(s)]`. */
  lemma RleEncodeFirstPair(s: seq<Byte>)
    requires |s| > 0
    ensures RleEncode(s)[..2] == [s[0], RunLength(s)]
    ensures s[..RunLength(s)] == Repeat(s[0], RunLength(s))
  {
  }

  // ---------------------------------------------------------------------
  // The two loops
  // ---------------------------------------------------------------------

  /** Once the pending run `t[..count]` is closed, the encoding of `t` starts with it. */
  lemma CloseRun(t: seq<Byte>, count: nat)
    requires 1 <= count <= |t| && count <= 255
    requires forall j :: 0 <= j < count ==> t[j] == t[count - 1]
    requires count == |t| || count == 255 || t[count] != t[count - 1]
    ensures RleEncode(t) == [t[count - 1], count] + RleEncode(t[count..])
  {
    RunLengthUnique(t, count);
  }

  /**
   * The state of `rleCompress` before reading position `i`: `bytes` holds
   * the closed runs and `input[i - count..i]` is the open run.
   */
  ghost predicate OpenRun(input: seq<Byte>, i: nat, count: nat, bytes: seq<Byte>) {
    && 1 <= count <= i <= |input| && count <= 255
    && (forall j :: i - count <= j < i ==> input[j] == input[i - 1])
    && bytes + RleEncode(input[i - count..]) == RleEncode(input)
  }

  /** An equal neighbour below the cap extends the open run. */
  lemma ExtendStep(input: seq<Byte>, i: nat, count: nat, bytes: seq<Byte>)
    requires OpenRun(input, i, count, bytes)
    requires i < |input| && input[i] == input[i - 1] && count < 255
    ensures OpenRun(input, i + 1, count + 1, bytes)
  {
    assert (i + 1) - (count + 1) == i - count;
  }

  /** A run that cannot be extended at `i` is the first pair of the encoding of `input[i - count..]`. */
  lemma RunClosedAt(input: seq<Byte>, i: nat, count: nat)
    requires 1 <= count <= i <= |input| && count <= 255
    requires forall j :: i - count <= j < i ==> input[j] == input[i - 1]
    requires !(i < |input| && input[i] == input[i - 1] && count < 255)
    ensures RleEncode(input[i - count..]) == [input[i - 1], count] + RleEncode(input[i..])
  {
    var t := input[i - count..];
    assert t[count..] == input[i..];
    forall j | 0 <= j < count ensures t[j] == t[count - 1] {
      assert t[j] == input[i - count + j];
    }
    CloseRun(t, count);
  }

  /** Pushing the closed run keeps the encoding of the unread suffix the rest of the output. */
  lemma PushRun(input: seq<Byte>, i: nat, count: nat, bytes: seq<Byte>)
    requires OpenRun(input, i, count, bytes)
    requires !(i < |input| && input[i] == input[i - 1] && count < 255)
    ensures (bytes + [input[i - 1], count]) + RleEncode(input[i..]) == RleEncode(input)
  {
    RunClosedAt(input, i, count);
    Regroup(bytes, [input[i - 1], count], RleEncode(input[i..]), RleEncode(input));
  }

  /** Concatenation regrouped: `a + (b + c) == d` gives `(a + b) + c == d`. */
  lemma Regroup(a: seq<Byte>, b: seq<Byte>, c: seq<Byte>, d: seq<Byte>)
    requires a + (b + c) == d
    ensures (a + b) + c == d
  {
    assert (a + b) + c == a + (b + c);
  }

  /** Otherwise the open run is pushed, and the next byte opens a new one. */
  lemma CloseStep(input: seq<Byte>, i: nat, count: nat, bytes: seq<Byte>)
    requires OpenRun(input, i, count, bytes)
    requires !(i < |input| && input[i] == input[i - 1] && count < 255)
    ensures i < |input| ==> OpenRun(input, i + 1, 1, bytes + [input[i - 1], count])
    ensures i == |input| ==> bytes + [input[i - 1], count] == RleEncode(input)
  {
    PushRun(input, i, count, bytes);
    if i == |input| {
      assert input[i..] == [];
    } else {
      assert input[(i + 1) - 1..] == input[i..];
    }
  }

  /** `rleCompress(input)`: one pass that counts equal neighbours and pushes (byte, count) pairs. */
  method RleCompress(input: seq<Byte>) returns (bytes: seq<Byte>)
    ensures bytes == RleEncode(input)
  {
    bytes := [];
    var count := 1;
    for i := 1 to |input| + 1
      invariant 1 <= count <= 255
      invariant i <= |input| ==> OpenRun(input, i, count, bytes)
      invariant i > |input| ==> bytes == RleEncode(input)
    {
      if i < |input| && input[i] == input[i - 1] && count < 255 {
        ExtendStep(input, i, count, bytes);
        count := count + 1;
      } else {
        CloseStep(input, i, count, bytes);
        bytes := bytes + [input[i - 1], count];
        count := 1;
      }
    }
  }

  /** One step of the decoding loop at an even position `i`. */
  lemma DecodeStep(b: seq<Byte>, i: nat)
    requires i < |b|
    ensures RleDecode(b[i..]) ==
              Repeat(b[i], if i + 1 < |b| then b[i + 1] else 0) + RleDecode(b[if i + 2 < |b| then i + 2 else |b|..])
  {
    if i + 1 < |b| {
      assert b[i..][2..] == b[i + 2..];
    } else {
      assert b[|b|..] == [];
    }
  }

  /** `rleDecompress(bytes)`: walks the pairs two at a time; `bytes[i + 1]` past the end repeats nothing. */
  method RleDecompress(bytes: seq<Byte>) returns (result: seq<Byte>)
    ensures result == RleDecode(bytes)
  {
    result := [];
    var i := 0;
    while i < |bytes|
      invariant 0 <= i <= |bytes| + 1
      invariant result + RleDecode(bytes[if i < |bytes| then i else |bytes|..]) == RleDecode(bytes)
      decreases |bytes| - i
    {
      var c := bytes[i];
      var count := if i + 1 < |bytes| then bytes[i + 1] else 0;
      DecodeStep(bytes, i);
      result := result + Repeat(c, count);
      i := i + 2;
    }
    assert bytes[|bytes|..] == [];
  }

  // ---------------------------------------------------------------------
  // The data-URL wrappers
  // ---------------------------------------------------------------------

  /** `String.prototype.split` with a one-character separator. */
  function Split(s: string, sep: char): (parts: seq<string>)
    ensures |parts| >= 1
    decreases |s|
  {
    if |s| == 0 then [""]
    else
      var rest := Split(s[1..], sep);
      if s[0] == sep then [""] + rest else [[s[0]] + rest[0]] + rest[1..]
  }

  /** A string without the separator splits into itself. */
  lemma {:induction false} SplitNoSeparator(s: string, sep: char)
    requires sep !in s
    ensures Split(s, sep) == [s]
    decreases |s|
  {
    if |s| > 0 {
      SplitNoSeparator(s[1..], sep);
      assert [s[0]] + s[1..] == s;
    }
  }

  /** Splitting at the first separator yields the text before it, then the split of the rest. */
  lemma {:induction false} SplitAtFirst(a: string, sep: char, b: string)
    requires sep !in a
    ensures Split(a + [sep] + b, sep) == [a] + Split(b, sep)
    decreases |a|
  {
    if |a| == 0 {
      assert a + [sep] + b == [sep] + b;
      assert ([sep] + b)[1..] == b;
    } else {
      var s := a + [sep] + b;
      assert s[1..] == a[1..] + [sep] + b;
      SplitAtFirst(a[1..], sep, b);
      assert [a[0]] + a[1..] == a;
    }
  }

  /** The `i`-th element of a destructured array, `undefined` past the end. */
  function Field(parts: seq<string>, i: nat): Option<string> {
    if i < |parts| then Some(parts[i]) else None
  }

  /** Template-literal / `atob` string conversion: `undefined` becomes the text "undefined". */
  function Str(v: Option<string>): string {
    v.GetOr("undefined")
  }

  /** What the wrappers return: `null`, a data URL, or an exception (from `atob`). */
  datatype Outcome = Null | Text(url: string) | Throws

  const Marker: string := "RLE1"

  /**
   * `compressToBase64(file)`, given the data URL the `FileReader` produced
   * (`None` when there is no file): RLE-encodes the payload and appends
   * ";RLE1" to the whole header.
   */
  function CompressToBase64(dataUrl: Option<string>, atob: string -> Option<seq<Byte>>, btoa: seq<Byte> -> string): (r: Outcome)
    ensures dataUrl.None? <==> r == Null
    ensures dataUrl.Some? && atob(Str(Field(Split(dataUrl.value, ','), 1))).None? ==> r == Throws
    ensures dataUrl.Some? && atob(Str(Field(Split(dataUrl.value, ','), 1))).Some? ==>
              r == Text(Split(dataUrl.value, ',')[0] + ";" + Marker + ","
                        + btoa(RleEncode(atob(Str(Field(Split(dataUrl.value, ','), 1))).value)))
  {
    if dataUrl.None? then Null
    else
      var parts := Split(dataUrl.value, ',');
      var meta := parts[0];
      match atob(Str(Field(parts, 1)))
      case None => Throws
      case Some(binary) => Text(meta + ";" + Marker + "," + btoa(RleEncode(binary)))
  }

  /**
   * `decompressFromBase64(dataUrl)` as written: RLE-decodes only when the
   * SECOND ';'-separated header field is "RLE1", and rebuilds the URL from
   * the FIRST header field alone.
   */
  function DecompressFromBase64(dataUrl: Option<string>, atob: string -> Option<seq<Byte>>, btoa: seq<Byte> -> string): (r: Outcome)
    ensures dataUrl.None? || dataUrl.value == "" ==> r == Null
    ensures r.Text? ==> |r.url| > |Split(Split(dataUrl.value, ',')[0], ';')[0]|
    ensures dataUrl.Some? && dataUrl.value != "" ==>
              (r == Throws <==> atob(Str(Field(Split(dataUrl.value, ','), 1))).None?)
    ensures dataUrl.Some? && dataUrl.value != "" && atob(Str(Field(Split(dataUrl.value, ','), 1))).Some? ==>
              var header := Split(Split(dataUrl.value, ',')[0], ';');
              var binary := atob(Str(Field(Split(dataUrl.value, ','), 1))).value;
              r == Text(header[0] + "," + btoa(if Field(header, 1) == Some(Marker) then RleDecode(binary) else binary))
  {
    if dataUrl.None? || dataUrl.value == "" then Null
    else
      var parts := Split(dataUrl.value, ',');
      var header := Split(parts[0], ';');
      var meta := header[0];
      var marker := Field(header, 1);
      match atob(Str(Field(parts, 1)))
      case None => Throws
      case Some(binary) =>
        var decompressed := if marker == Some(Marker) then RleDecode(binary) else binary;
        Text(meta + "," + btoa(decompressed))
  }

  /** Whether `s` ends with `suffix`. */
  predicate EndsWith(s: string, suffix: string) {
    |suffix| <= |s| && s[|s| - |suffix|..] == suffix
  }

  /**
   * The decoder the wrappers need: the marker is recognised at the END of
   * the header, where `compressToBase64` puts it, and removed from it.
   */
  function DecompressFixed(dataUrl: Option<string>, atob: string -> Option<seq<Byte>>, btoa: seq<Byte> -> string): (r: Outcome)
    ensures dataUrl.None? || dataUrl.value == "" ==> r == Null
  {
    if dataUrl.None? || dataUrl.value == "" then Null
    else
      var parts := Split(dataUrl.value, ',');
      var metaPart := parts[0];
      var tagged := EndsWith(metaPart, ";" + Marker);
      var meta := if tagged then metaPart[..|metaPart| - 5] else metaPart;
      match atob(Str(Field(parts, 1)))
      case None => Throws
      case Some(binary) =>
        var decompressed := if tagged then RleDecode(binary) else binary;
        Text(meta + "," + btoa(decompressed))
  }

  /** `btoa` is inverted by `atob` and never emits a comma (true of every base64 alphabet). */
  ghost predicate Base64Pair(atob: string -> Option<seq<Byte>>, btoa: seq<Byte> -> string) {
    (forall b :: atob(btoa(b)) == Some(b)) && (forall b :: ',' !in btoa(b))
  }

  /** The shape of what a `FileReader` produces: a comma-free header, a comma, and canonical base64 of the content. */
  ghost predicate FileDataUrl(url: string, meta: string, content: seq<Byte>, btoa: seq<Byte> -> string) {
    url == meta + "," + btoa(content) && ',' !in meta
  }

  /** What compressing a file's data URL produces, in terms of its header and content. */
  lemma CompressedForm(url: string, meta: string, content: seq<Byte>,
                       atob: string -> Option<seq<Byte>>, btoa: seq<Byte> -> string)
    requires Base64Pair(atob, btoa) && FileDataUrl(url, meta, content, btoa)
    ensures CompressToBase64(Some(url), atob, btoa) == Text(meta + ";" + Marker + "," + btoa(RleEncode(content)))
  {
    SplitAtFirst(meta, ',', btoa(content));
    SplitNoSeparator(btoa(content), ',');
  }

  /**
   * The wrappers as written do not round-trip: for a header "m;base64",
   * decompression reads "base64" as the marker, returns the still-encoded
   * bytes, and drops ";base64" from the header.
   */
  lemma WrappersDoNotRoundTrip(m: string, content: seq<Byte>,
                               atob: string -> Option<seq<Byte>>, btoa: seq<Byte> -> string)
    requires Base64Pair(atob, btoa)
    requires ',' !in m && ';' !in m
    ensures CompressToBase64(Some(m + ";base64," + btoa(content)), atob, btoa)
              == Text(m + ";base64;RLE1," + btoa(RleEncode(content)))
    ensures DecompressFromBase64(Some(m + ";base64;RLE1," + btoa(RleEncode(content))), atob, btoa)
              == Text(m + "," + btoa(RleEncode(content)))
    ensures m + "," + btoa(RleEncode(content)) != m + ";base64," + btoa(content)
  {
    var url := m + ";base64," + btoa(content);
    AsWrittenCompress(m, content, atob, btoa);
    AsWrittenDecompress(m, btoa(RleEncode(content)), RleEncode(content), atob, btoa);
    var out := m + "," + btoa(RleEncode(content));
    assert out[|m|] == ',' && url[|m|] == ';';
  }

  /** Compressing "m;base64,<content>" puts the marker after ";base64". */
  lemma AsWrittenCompress(m: string, content: seq<Byte>,
                          atob: string -> Option<seq<Byte>>, btoa: seq<Byte> -> string)
    requires Base64Pair(atob, btoa)
    requires ',' !in m && ';' !in m
    ensures CompressToBase64(Some(m + ";base64," + btoa(content)), atob, btoa)
              == Text(m + ";base64;RLE1," + btoa(RleEncode(content)))
  {
    var url := m + ";base64," + btoa(content);
    assert url == (m + ";base64") + "," + btoa(content);
    CompressedForm(url, m + ";base64", content, atob, btoa);
    MarkedHeader(m, ";base64", btoa(RleEncode(content)));
    assert ";base64" + ";RLE1," == ";base64;RLE1,";
  }

  /** Appending the marker to a header `m + p`, regrouped around `m`. */
  lemma MarkedHeader(m: string, p: string, x: string)
    ensures (m + p) + ";" + Marker + "," + x == m + (p + ";RLE1,") + x
  {
    assert ";" + Marker + "," == ";RLE1,";
    assert (m + p) + ";" + Marker + "," + x == (m + p) + (";" + Marker + ",") + x;
  }

  /** Decompressing "m;base64;RLE1,<payload>" as written: the marker field read is "base64". */
  lemma AsWrittenDecompress(m: string, payload: string, binary: seq<Byte>,
                            atob: string -> Option<seq<Byte>>, btoa: seq<Byte> -> string)
    requires ',' !in m && ';' !in m && ',' !in payload
    requires atob(payload) == Some(binary)
    ensures DecompressFromBase64(Some(m + ";base64;RLE1," + payload), atob, btoa) == Text(m + "," + btoa(binary))
  {
    var header := m + ";base64;RLE1";
    assert m + ";base64;RLE1," + payload == header + [','] + payload;
    HeaderFields(m);
    SplitAtFirst(header, ',', payload);
    SplitNoSeparator(payload, ',');
    assert Split(m + ";base64;RLE1," + payload, ',') == [header, payload];
  }

  /** The header "m;base64;RLE1" holds no comma and splits at ';' into its three fields. */
  lemma HeaderFields(m: string)
    requires ';' !in m && ',' !in m
    ensures ',' !in m + ";base64;RLE1"
    ensures Split(m + ";base64;RLE1", ';') == [m, "base64", "RLE1"]
  {
    var b: string := "base64";
    var c: string := "RLE1";
    assert ';' !in b && ';' !in c && ',' !in b && ',' !in c;
    assert ";base64;RLE1" == [';'] + b + [';'] + c;
    Regroup3(m, b, c, ';');
    SplitThree(m, b, c, ';');
  }

  /** `a` followed by the joined tail `;b;c` is the joined string `a;b;c`. */
  lemma Regroup3(a: string, b: string, c: string, sep: char)
    ensures a + ([sep] + b + [sep] + c) == a + [sep] + b + [sep] + c
  {
  }

  /** Three fields without the separator, joined by it, split back into those fields. */
  lemma SplitThree(a: string, b: string, c: string, sep: char)
    requires sep !in a && sep !in b && sep !in c
    ensures Split(a + [sep] + b + [sep] + c, sep) == [a, b, c]
  {
    assert a + [sep] + b + [sep] + c == a + [sep] + (b + [sep] + c);
    SplitAtFirst(a, sep, b + [sep] + c);
    SplitAtFirst(b, sep, c);
    SplitNoSeparator(c, sep);
  }

  /** A concrete instance: "AAA" comes back as the pair (65, 3). */
  lemma RoundTripCounterexample()
    ensures RleEncode([65, 65, 65]) == [65, 3]
    ensures RleEncode([65, 65, 65]) != [65, 65, 65]
  {
    RunLengthUnique([65, 65, 65], 3);
    assert [65, 65, 65][3..] == [];
  }

  /** With the marker read where it is written, compression followed by decompression returns the original data URL. */
  lemma FixedWrappersRoundTrip(url: string, meta: string, content: seq<Byte>,
                               atob: string -> Option<seq<Byte>>, btoa: seq<Byte> -> string)
    requires Base64Pair(atob, btoa) && FileDataUrl(url, meta, content, btoa)
    ensures CompressToBase64(Some(url), atob, btoa).Text?
    ensures DecompressFixed(Some(CompressToBase64(Some(url), atob, btoa).url), atob, btoa) == Text(url)
  {
    CompressedForm(url, meta, content, atob, btoa);
    FixedReadsMarker(meta, btoa(RleEncode(content)), RleEncode(content), atob, btoa);
    RleRoundTrip(content);
  }

  /** The fixed decoder strips ";RLE1" from the end of the header and decodes the payload. */
  lemma FixedReadsMarker(meta: string, payload: string, binary: seq<Byte>,
                         atob: string -> Option<seq<Byte>>, btoa: seq<Byte> -> string)
    requires ',' !in meta && ',' !in payload
    requires atob(payload) == Some(binary)
    ensures DecompressFixed(Some(meta + ";" + Marker + "," + payload), atob, btoa) == Text(meta + "," + btoa(RleDecode(binary)))
  {
    var header := meta + ";" + Marker;
    assert ',' !in header;
    assert meta + ";" + Marker + "," + payload == header + [','] + payload;
    SplitAtFirst(header, ',', payload);
    SplitNoSeparator(payload, ',');
    assert EndsWith(header, ";" + Marker);
    assert header[..|header| - 5] == meta;
  }

  /** Data URLs that were never compressed pass through the fixed decoder unchanged. */
  lemma FixedDecoderKeepsPlainUrls(url: string, meta: string, content: seq<Byte>,
                                   atob: string -> Option<seq<Byte>>, btoa: seq<Byte> -> string)
    requires Base64Pair(atob, btoa) && FileDataUrl(url, meta, content, btoa)
    requires !EndsWith(meta, ";" + Marker)
    ensures DecompressFixed(Some(url), atob, btoa) == Text(url)
  {
    SplitAtFirst(meta, ',', btoa(content));
    SplitNoSeparator(btoa(content), ',');
  }
}
