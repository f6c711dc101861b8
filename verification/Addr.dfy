// The `tx3:` address: an optional peer id and a list of stacks, printed as an
// opaque url path of `/`-terminated parts.
module Addr {
  import opened Net
  import Base64

  datatype Tx3Stack = TlsTcp(v: string) | RelayTlsTcp(v: string) | Other(k: string, v: string)

  datatype Tx3Addr = Tx3Addr(id: Option<Tx3Id>, stackList: seq<Tx3Stack>)

  const DEFAULT := Tx3Addr(None, [])

  function FromPair(k: string, v: string): Tx3Stack {
    if k == "st" then TlsTcp(v)
    else if k == "rst" then RelayTlsTcp(v)
    else Other(k, v)
  }

  function AsPair(s: Tx3Stack): (string, string) {
    match s
    case TlsTcp(v) => ("st", v)
    case RelayTlsTcp(v) => ("rst", v)
    case Other(k, v) => (k, v)
  }

  // --- Ids ---

  // How lenient the base64 library is does not matter here: it decodes what it
  // encodes, and it does not take the placeholder for an id.
  ghost predicate GoodDecoder(decode: string -> Option<seq<Byte>>) {
    (forall b: Bytes32 :: decode(Base64.Encode(b)) == Some(b)) &&
    (decode("-").Some? ==> |decode("-").value| != 32)
  }

  function FromB64(decode: string -> Option<seq<Byte>>, s: string): Option<Tx3Id> {
    match decode(s)
    case Some(v) => if |v| == 32 then Some(Tx3Id(v)) else None
    case None => None
  }

  function IdText(id: Option<Tx3Id>): string {
    match id
    case Some(id) => Base64.Encode(id.bytes)
    case None => "-"
  }

  // Both decoders of the standard are good ones.
  lemma Rfc4648IsGood(strict: bool)
    ensures GoodDecoder(s => Base64.Decode(s, strict))
  {
    forall b: Bytes32 ensures Base64.Decode(Base64.Encode(b), strict) == Some(b) {
      Base64.DecodeEncode(b, "", strict);
    }
    assert Base64.SextetsOf("-") == Some([62]) by {
      var last: seq<Base64.Sextet> := [62];
      assert "-"[1..] == "" && last + [] == last;
      assert Base64.SextetsOf("") == Some([]);
    }
  }

  lemma IdRoundTrip(decode: string -> Option<seq<Byte>>, id: Option<Tx3Id>)
    requires GoodDecoder(decode)
    ensures FromB64(decode, IdText(id)) == id
    ensures SlashFree(IdText(id))
  {
    if id.Some? {
      assert decode(Base64.Encode(id.value.bytes)) == Some(id.value.bytes);
      Base64.IdText(id.value.bytes);
    }
  }

  // --- Splitting at slashes ---

  predicate SlashFree(s: string) { '/' !in s }

  function Split(s: string): (r: seq<string>)
    ensures |r| >= 1
  {
    if s == "" then [""]
    else
      var rest := Split(s[1..]);
      if s[0] == '/' then [""] + rest else [[s[0]] + rest[0]] + rest[1..]
  }

  // str::split_terminator: an empty last part is not a part.
  function SplitTerminator(s: string): seq<string> {
    var parts := Split(s);
    if parts[|parts| - 1] == "" then parts[..|parts| - 1] else parts
  }

  function JoinParts(parts: seq<string>): string {
    if parts == [] then "" else parts[0] + "/" + JoinParts(parts[1..])
  }

  lemma {:induction false} SplitFirst(part: string, rest: string)
    requires SlashFree(part)
    ensures Split(part + "/" + rest) == [part] + Split(rest)
    decreases |part|
  {
    var s := part + "/" + rest;
    if part == "" {
      assert s[1..] == rest;
    } else {
      assert s[1..] == part[1..] + "/" + rest;
      SplitFirst(part[1..], rest);
      assert part == [part[0]] + part[1..];
    }
  }

  lemma {:induction false} SplitJoined(parts: seq<string>)
    requires forall k :: 0 <= k < |parts| ==> SlashFree(parts[k])
    ensures Split(JoinParts(parts)) == parts + [""]
  {
    if parts != [] {
      SplitFirst(parts[0], JoinParts(parts[1..]));
      SplitJoined(parts[1..]);
      assert parts == [parts[0]] + parts[1..];
    }
  }

  lemma {:induction false} SplitIsFree(s: string)
    ensures forall k :: 0 <= k < |Split(s)| ==> SlashFree(Split(s)[k])
  {
    if s != "" {
      SplitIsFree(s[1..]);
      assert SlashFree(Split(s[1..])[0]);
    }
  }

  predicate AllSlashFree(parts: seq<string>) {
    forall k :: 0 <= k < |parts| ==> SlashFree(parts[k])
  }

  // The parts of a path: each is followed by a slash, but for the last, which
  // need not be unless it is empty.
  predicate PartsOf(path: string, parts: seq<string>) {
    AllSlashFree(parts) &&
    (path == JoinParts(parts) ||
     (parts != [] && parts[|parts| - 1] != "" &&
      path == JoinParts(parts[..|parts| - 1]) + parts[|parts| - 1]))
  }

  lemma {:induction false} SplitUnterminated(parts: seq<string>, last: string)
    requires AllSlashFree(parts) && SlashFree(last)
    ensures Split(JoinParts(parts) + last) == parts + [last]
  {
    if parts == [] {
      assert JoinParts(parts) + last == last;
      SplitFree(last);
    } else {
      var rest := JoinParts(parts[1..]) + last;
      SplitUnterminated(parts[1..], last);
      SplitFirst(parts[0], rest);
      assert JoinParts(parts) + last == parts[0] + "/" + rest;
      assert parts == [parts[0]] + parts[1..];
    }
  }

  lemma {:induction false} SplitFree(part: string)
    requires SlashFree(part)
    ensures Split(part) == [part]
  {
    if part != "" {
      SplitFree(part[1..]);
      assert part == [part[0]] + part[1..];
    }
  }

  lemma {:induction false} SplitWhole(s: string)
    ensures var parts := Split(s);
      s == JoinParts(parts[..|parts| - 1]) + parts[|parts| - 1]
  {
    if s != "" {
      SplitWhole(s[1..]);
      var parts, rest := Split(s), Split(s[1..]);
      assert s == [s[0]] + s[1..];
      if s[0] == '/' {
        assert parts[..|parts| - 1] == [""] + rest[..|rest| - 1];
        assert parts[..|parts| - 1][1..] == rest[..|rest| - 1];
      } else if |rest| > 1 {
        assert parts[..|parts| - 1] == [[s[0]] + rest[0]] + rest[1..|rest| - 1];
        assert parts[..|parts| - 1][1..] == rest[..|rest| - 1][1..];
      }
    }
  }

  lemma {:induction false} JoinLast(parts: seq<string>, last: string)
    ensures JoinParts(parts + [last]) == JoinParts(parts) + last + "/"
  {
    if parts != [] {
      JoinLast(parts[1..], last);
      assert (parts + [last])[1..] == parts[1..] + [last];
    } else {
      assert (parts + [last])[1..] == [];
    }
  }

  lemma PartsAreSplit(path: string, parts: seq<string>)
    requires PartsOf(path, parts)
    ensures SplitTerminator(path) == parts
  {
    if path == JoinParts(parts) {
      SplitJoined(parts);
    } else {
      var n := |parts| - 1;
      SplitUnterminated(parts[..n], parts[n]);
      assert parts == parts[..n] + [parts[n]];
    }
  }

  lemma SplitAreParts(path: string)
    ensures PartsOf(path, SplitTerminator(path))
  {
    SplitIsFree(path);
    SplitWhole(path);
    var all := Split(path);
    var n := |all| - 1;
    if all[n] == "" {
      assert path == JoinParts(all[..n]);
    }
  }

  // Every path has exactly one list of parts, and that is what it is split into.
  lemma SplitTerminated(path: string, parts: seq<string>)
    ensures SplitTerminator(path) == parts <==> PartsOf(path, parts)
  {
    SplitAreParts(path);
    if PartsOf(path, parts) { PartsAreSplit(path, parts); }
  }

  // --- Parsing and printing ---

  function Stacks(parts: seq<string>): (r: seq<Tx3Stack>)
    ensures |r| == |parts| / 2
  {
    if |parts| < 2 then [] else [FromPair(parts[0], parts[1])] + Stacks(parts[2..])
  }

  function ParseParts(decode: string -> Option<seq<Byte>>, parts: seq<string>): Tx3Addr {
    if parts == [] then DEFAULT else Tx3Addr(FromB64(decode, parts[0]), Stacks(parts[1..]))
  }

  function Flatten(stacks: seq<Tx3Stack>): (r: seq<string>)
    ensures |r| == 2 * |stacks|
  {
    if stacks == [] then []
    else var (k, v) := AsPair(stacks[0]); [k, v] + Flatten(stacks[1..])
  }

  function Parts(a: Tx3Addr): seq<string> {
    [IdText(a.id)] + Flatten(a.stackList)
  }

  const SCHEME := "tx3:"

  lemma StacksFrom(parts: seq<string>, next: nat, done: seq<Tx3Stack>)
    requires next + 1 < |parts|
    ensures done + Stacks(parts[next..])
         == done + [FromPair(parts[next], parts[next + 1])] + Stacks(parts[next + 2..])
  {
    assert parts[next..][2..] == parts[next + 2..];
  }

  // `s` is the stack under key `k`.
  predicate StackUnder(s: Tx3Stack, k: string, v: string) {
    (k == "st" ==> s == TlsTcp(v)) && (k == "rst" ==> s == RelayTlsTcp(v)) &&
    (k != "st" && k != "rst" ==> s == Other(k, v))
  }

  // What an address says of a list of parts: the first is its id, if it decodes
  // to 32 bytes; the others are keys and values in turn.
  ghost predicate Describes(decode: string -> Option<seq<Byte>>, a: Tx3Addr, parts: seq<string>) {
    (parts == [] ==> a == Tx3Addr(None, [])) &&
    (parts != [] ==>
      (forall id :: a.id == Some(id) <==> decode(parts[0]) == Some(id.bytes)) &&
      |a.stackList| == (|parts| - 1) / 2 &&
      forall k :: 0 <= k < |a.stackList| ==> StackUnder(a.stackList[k], parts[1 + 2 * k], parts[2 + 2 * k]))
  }

  lemma {:induction false} StacksAt(parts: seq<string>, k: nat)
    requires k < |parts| / 2
    ensures StackUnder(Stacks(parts)[k], parts[2 * k], parts[2 * k + 1])
  {
    if k > 0 {
      StacksAt(parts[2..], k - 1);
    }
  }

  lemma ParseDescribes(decode: string -> Option<seq<Byte>>, parts: seq<string>)
    ensures Describes(decode, ParseParts(decode, parts), parts)
  {
    if parts != [] {
      var a := ParseParts(decode, parts);
      forall k | 0 <= k < |a.stackList|
        ensures StackUnder(a.stackList[k], parts[1 + 2 * k], parts[2 + 2 * k])
      {
        StacksAt(parts[1..], k);
      }
      forall id ensures a.id == Some(id) <==> decode(parts[0]) == Some(id.bytes) {
      }
    }
  }

  // From<url::Url>: one part for the id, then keys and values in turn.
  method FromUrlPath(decode: string -> Option<seq<Byte>>, path: string) returns (a: Tx3Addr)
    ensures a == ParseParts(decode, SplitTerminator(path))
    ensures forall parts :: PartsOf(path, parts) ==> Describes(decode, a, parts)
  {
    ParseDescribes(decode, SplitTerminator(path));
    forall parts | PartsOf(path, parts) ensures parts == SplitTerminator(path) {
      SplitTerminated(path, parts);
    }
    a := DEFAULT;
    var parts := SplitTerminator(path);
    if parts == [] {
      return a;
    }
    a := a.(id := FromB64(decode, parts[0]));
    var next := 1;
    while next < |parts|
      invariant 1 <= next <= |parts|
      invariant a.id == FromB64(decode, parts[0])
      invariant a.stackList + Stacks(parts[next..]) == Stacks(parts[1..])
    {
      var k := parts[next];
      if next + 1 == |parts| {
        return a;
      }
      var v := parts[next + 1];
      StacksFrom(parts, next, a.stackList);
      a := a.(stackList := a.stackList + [FromPair(k, v)]);
      next := next + 2;
    }
  }

  method ToUrl(a: Tx3Addr) returns (out: string)
    ensures out == "tx3:" + JoinParts(Parts(a))
  {
    out := SCHEME;
    out := out + IdText(a.id) + "/";
    var list := a.stackList;
    assert Parts(a)[1..] == Flatten(list);
    assert list[0..] == list;
    for i := 0 to |list|
      invariant out + JoinParts(Flatten(list[i..])) == SCHEME + JoinParts(Parts(a))
    {
      var (k, v) := AsPair(list[i]);
      PrintNext(list, i, out);
      out := out + k + "/" + v + "/";
    }
  }

  lemma Regroup(a: string, b: string, rest: string)
    ensures a + "/" + (b + "/" + rest) == a + "/" + b + "/" + rest
  {
  }

  lemma JoinTwo(a: string, b: string, rest: seq<string>)
    ensures JoinParts([a, b] + rest) == a + "/" + (b + "/" + JoinParts(rest))
  {
    assert ([a, b] + rest)[1..] == [b] + rest;
    assert ([b] + rest)[1..] == rest;
  }

  lemma PrintPair(stacks: seq<Tx3Stack>)
    requires stacks != []
    ensures var (k, v) := AsPair(stacks[0]);
      JoinParts(Flatten(stacks)) == k + "/" + v + "/" + JoinParts(Flatten(stacks[1..]))
  {
    var (k, v) := AsPair(stacks[0]);
    JoinTwo(k, v, Flatten(stacks[1..]));
    Regroup(k, v, JoinParts(Flatten(stacks[1..])));
  }

  lemma Extend(out: string, a: string, b: string, rest: string)
    ensures out + (a + "/" + b + "/" + rest) == out + a + "/" + b + "/" + rest
  {
  }

  lemma PrintNext(list: seq<Tx3Stack>, i: nat, out: string)
    requires i < |list|
    ensures var (k, v) := AsPair(list[i]);
      out + JoinParts(Flatten(list[i..]))
      == out + k + "/" + v + "/" + JoinParts(Flatten(list[i + 1..]))
  {
    PrintPair(list[i..]);
    assert list[i..][1..] == list[i + 1..];
    Extend(out, AsPair(list[i]).0, AsPair(list[i]).1, JoinParts(Flatten(list[i + 1..])));
  }

  // Parts without slashes, and no other stack under the keys of the known two.
  predicate NormalStack(s: Tx3Stack) {
    SlashFree(AsPair(s).0) && SlashFree(AsPair(s).1) && (s.Other? ==> s.k != "st" && s.k != "rst")
  }

  predicate Normal(a: Tx3Addr) {
    forall k :: 0 <= k < |a.stackList| ==> NormalStack(a.stackList[k])
  }

  function Reparse(decode: string -> Option<seq<Byte>>, a: Tx3Addr): Tx3Addr {
    ParseParts(decode, SplitTerminator(JoinParts(Parts(a))))
  }

  lemma {:induction false} FlattenNormal(stacks: seq<Tx3Stack>)
    requires forall k :: 0 <= k < |stacks| ==> NormalStack(stacks[k])
    ensures Stacks(Flatten(stacks)) == stacks
    ensures forall k :: 0 <= k < |Flatten(stacks)| ==> SlashFree(Flatten(stacks)[k])
  {
    if stacks != [] {
      FlattenNormal(stacks[1..]);
      assert NormalStack(stacks[0]);
      assert Flatten(stacks)[2..] == Flatten(stacks[1..]);
    }
  }

  lemma {:induction false} StacksNormal(parts: seq<string>)
    requires forall k :: 0 <= k < |parts| ==> SlashFree(parts[k])
    ensures forall k :: 0 <= k < |Stacks(parts)| ==> NormalStack(Stacks(parts)[k])
  {
    if |parts| >= 2 {
      StacksNormal(parts[2..]);
    }
  }

  // Whatever the path, parsing yields a normal address; a key without a value
  // at the end is dropped.
  lemma ParseIsNormal(decode: string -> Option<seq<Byte>>, path: string)
    ensures Normal(ParseParts(decode, SplitTerminator(path)))
    ensures var parts := SplitTerminator(path);
      |ParseParts(decode, parts).stackList| == (if parts == [] then 0 else (|parts| - 1) / 2)
  {
    SplitIsFree(path);
    var parts := SplitTerminator(path);
    if parts != [] {
      StacksNormal(parts[1..]);
    }
  }

  // The text of an address: the id or a dash, then each key and value, every one
  // of them followed by a slash.
  lemma PrintedText(a: Tx3Addr, s: Tx3Stack)
    ensures JoinParts(Parts(Tx3Addr(None, []))) == "-/"
    ensures a.id.Some? ==> JoinParts(Parts(a.(stackList := []))) == Base64.Encode(a.id.value.bytes) + "/"
    ensures JoinParts(Parts(a.(stackList := a.stackList + [s]))) == JoinParts(Parts(a)) +
      match s
      case TlsTcp(v) => "st/" + v + "/"
      case RelayTlsTcp(v) => "rst/" + v + "/"
      case Other(k, v) => k + "/" + v + "/"
  {
    var (k, v) := AsPair(s);
    FlattenLast(a.stackList, s);
    assert Parts(a.(stackList := a.stackList + [s])) == Parts(a) + [k] + [v];
    JoinLast(Parts(a), k);
    JoinLast(Parts(a) + [k], v);
    JoinLast([], IdText(a.id));
    JoinLast([], "-");
    assert Parts(a.(stackList := [])) == [] + [IdText(a.id)];
    assert Parts(Tx3Addr(None, [])) == [] + ["-"];
    PairText(JoinParts(Parts(a)), k, v);
  }

  lemma PairText(text: string, k: string, v: string)
    ensures text + k + "/" + v + "/" == text + (k + "/" + v + "/")
    ensures "st" + "/" + v + "/" == "st/" + v + "/" && "rst" + "/" + v + "/" == "rst/" + v + "/"
  {
  }

  lemma {:induction false} FlattenLast(stacks: seq<Tx3Stack>, s: Tx3Stack)
    ensures Flatten(stacks + [s]) == Flatten(stacks) + [AsPair(s).0, AsPair(s).1]
  {
    if stacks == [] {
      assert ([s])[1..] == [] && stacks + [s] == [s];
    } else {
      FlattenLast(stacks[1..], s);
      assert (stacks + [s])[1..] == stacks[1..] + [s];
    }
  }

  // Printing an address and parsing the result gives it back exactly when it is
  // normal.
  lemma RoundTrip(decode: string -> Option<seq<Byte>>, a: Tx3Addr)
    requires GoodDecoder(decode)
    ensures Reparse(decode, a) == a <==> Normal(a)
  {
    if Normal(a) {
      IdRoundTrip(decode, a.id);
      FlattenNormal(a.stackList);
      SplitTerminated(JoinParts(Parts(a)), Parts(a));
      assert Parts(a)[1..] == Flatten(a.stackList);
    }
    ParseIsNormal(decode, JoinParts(Parts(a)));
  }

  // Hence what was parsed once survives printing and parsing, for every path.
  lemma ParsePrintParse(decode: string -> Option<seq<Byte>>, path: string)
    requires GoodDecoder(decode)
    ensures var a := ParseParts(decode, SplitTerminator(path)); Reparse(decode, a) == a
  {
    ParseIsNormal(decode, path);
    RoundTrip(decode, ParseParts(decode, SplitTerminator(path)));
  }
}
