/** The do-not-call registry file: the pinned format, read by streaming (seams/dnc_registry.py).
    A byte is a character here; a national number is the area code followed by seven digits. */
module Registry {
  import opened Types

  type Bytes = seq<char>

  /** A file on disk, read as a zip: unreadable, readable with no member, or its first member's bytes.
      The other field is whatever else the file holds, so equal values mean equal bytes. */
  datatype Archive = Corrupt(raw: Bytes) | Empty(raw: Bytes) | Member(packing: Bytes, stream: Bytes)

  /** Refused is DncRegistryError; Raised is any other exception, which no caller catches. */
  datatype Outcome<+T> = Ok(value: T) | Refused | Raised

  predicate IsDigit(c: char) {
    '0' <= c <= '9'
  }

  predicate AllDigits(s: Bytes) {
    forall i :: 0 <= i < |s| ==> IsDigit(s[i])
  }

  function Prefix(areaCode: string): Bytes {
    areaCode + ","
  }

  /** `AAA,NNNNNNN`: the one definition of a full-list line. */
  predicate PinnedLine(line: Bytes, prefix: Bytes) {
    |line| == 11 && prefix <= line && AllDigits(line[4..])
  }

  /** A line of the list: the area code's three digits, a comma, seven digits, and no more. */
  lemma {:induction false} PinnedMeans(line: Bytes, areaCode: string)
    requires |areaCode| == 3
    ensures PinnedLine(line, Prefix(areaCode))
            <==> exists number :: |number| == 7 && line == areaCode + "," + number && forall i :: 0 <= i < 7 ==> number[i] in "0123456789"
  {
    if PinnedLine(line, Prefix(areaCode)) {
      var number := line[4..];
      assert line == Prefix(areaCode) + number;
      forall i | 0 <= i < 7 ensures number[i] in "0123456789" {
        assert IsDigit(number[i]);
        assert "0123456789"[number[i] as int - '0' as int] == number[i];
      }
    }
    if number :| |number| == 7 && line == areaCode + "," + number && forall i :: 0 <= i < 7 ==> number[i] in "0123456789" {
      assert line[4..] == number && line[..4] == Prefix(areaCode);
    }
  }

  /** How much of a non-empty stream its first line takes, newline included. */
  function LineLength(s: Bytes): (n: nat)
    requires s != []
    ensures 0 < n <= |s|
  {
    if s[0] == '\n' || |s| == 1 then 1 else 1 + LineLength(s[1..])
  }

  function StripNewlines(raw: Bytes): (line: Bytes)
    ensures line <= raw
  {
    if raw != [] && raw[|raw| - 1] == '\n' then StripNewlines(raw[..|raw| - 1]) else raw
  }

  /** The stripped lines of a stream, in order. */
  function Lines(s: Bytes): seq<Bytes> {
    if s == [] then [] else [StripNewlines(s[..LineLength(s)])] + Lines(s[LineLength(s)..])
  }

  predicate WellFormedStream(areaCode: string, s: Bytes) {
    forall i :: 0 <= i < |Lines(s)| ==> PinnedLine(Lines(s)[i], Prefix(areaCode))
  }

  predicate WellFormed(areaCode: string, a: Archive) {
    a.Member? && WellFormedStream(areaCode, a.stream)
  }

  function NumberOn(areaCode: string, line: Bytes): string {
    if 4 <= |line| then areaCode + line[4..] else areaCode
  }

  /** The national numbers a well-formed file lists. */
  function Numbers(areaCode: string, a: Archive): set<string>
    requires WellFormed(areaCode, a)
  {
    NumbersOn(areaCode, Lines(a.stream))
  }

  function NumbersOn(areaCode: string, lines: seq<Bytes>): set<string> {
    set i | 0 <= i < |lines| :: NumberOn(areaCode, lines[i])
  }

  lemma {:induction false} NumbersOnGrows(areaCode: string, lines: seq<Bytes>, line: Bytes)
    ensures NumbersOn(areaCode, lines + [line]) == NumbersOn(areaCode, lines) + {NumberOn(areaCode, line)}
  {
    var all := lines + [line];
    assert all[|lines|] == line;
    assert forall i :: 0 <= i < |lines| ==> all[i] == lines[i];
  }

  lemma {:induction false} LinesSplit(done: seq<Bytes>, rest: Bytes)
    requires rest != []
    ensures done + Lines(rest) == (done + [StripNewlines(rest[..LineLength(rest)])]) + Lines(rest[LineLength(rest)..])
  {
  }

  /** What `listed` answers: it reads the one file the directory holds for this area code. */
  ghost function Listing<N>(zips: map<N, Archive>, areaCode: string, candidates: set<string>): Outcome<set<string>> {
    if |zips.Keys| != 1 then Refused else
    var name :| name in zips;
    match zips[name]
    case Corrupt(_) => Refused
    case Empty(_) => Raised
    case Member(_, _) =>
      if WellFormed(areaCode, zips[name]) then Ok(candidates * Numbers(areaCode, zips[name])) else Refused
  }

  /** `listed`: which candidates the snapshot directory's file for this area code lists. */
  method Listed<N(==)>(zips: map<N, Archive>, areaCode: string, candidates: set<string>)
    returns (r: Outcome<set<string>>)
    ensures r == Listing(zips, areaCode, candidates)
  {
    if |zips.Keys| != 1 {
      return Refused;
    }
    var name :| name in zips;
    OnlyKey(zips.Keys, name);
    var zip := zips[name];
    if zip.Corrupt? {
      return Refused;
    }
    if zip.Empty? {
      return Raised;
    }
    var prefix := Prefix(areaCode);
    var hits: set<string> := {};
    var rest := zip.stream;
    ghost var done: seq<Bytes> := [];
    while rest != []
      invariant Lines(zip.stream) == done + Lines(rest)
      invariant forall i :: 0 <= i < |done| ==> PinnedLine(done[i], prefix)
      invariant hits == candidates * NumbersOn(areaCode, done)
      decreases |rest|
    {
      var line := StripNewlines(rest[..LineLength(rest)]);
      LinesSplit(done, rest);
      if !PinnedLine(line, prefix) {
        assert Lines(zip.stream)[|done|] == line;
        return Refused;
      }
      NumbersOnGrows(areaCode, done, line);
      done := done + [line];
      if NumberOn(areaCode, line) in candidates {
        hits := hits + {NumberOn(areaCode, line)};
      }
      rest := rest[LineLength(rest)..];
    }
    assert done == Lines(zip.stream);
    return Ok(hits);
  }

  lemma {:induction false} OnlyKey<N>(names: set<N>, name: N)
    requires |names| == 1 && name in names
    ensures names == {name}
  {
    assert |names - {name}| == 0;
  }

  /** An answer comes from one file, which passes the same format test that judged it. */
  lemma {:induction false} ListingReads<N>(zips: map<N, Archive>, areaCode: string, candidates: set<string>) returns (name: N)
    requires Listing(zips, areaCode, candidates).Ok?
    ensures zips.Keys == {name} && WellFormed(areaCode, zips[name])
    ensures Listing(zips, areaCode, candidates).value == candidates * Numbers(areaCode, zips[name])
  {
    name :| name in zips;
    forall other | other in zips ensures other == name {
      OnlyKey(zips.Keys, name);
    }
  }

  /** The scrub succeeds on precisely the files validation accepts. */
  lemma {:induction false} ListingMeetsValidation<N>(zips: map<N, Archive>, name: N, areaCode: string, candidates: set<string>)
    requires zips.Keys == {name}
    ensures Listing(zips, areaCode, candidates).Ok? <==> WellFormed(areaCode, zips[name])
  {
    assert |{name}| == 1;
  }

  /** `validate_and_count`: the judging half, run before any contact is scrubbed against the file. */
  method ValidateAndCount(zip: Archive, areaCode: string) returns (r: Outcome<nat>)
    ensures r.Ok? <==> WellFormed(areaCode, zip)
    ensures r.Ok? ==> r.value == |Lines(zip.stream)|
    ensures !r.Raised?
  {
    if !zip.Member? {
      return Refused;
    }
    var prefix := Prefix(areaCode);
    var count := 0;
    var rest := zip.stream;
    ghost var done: seq<Bytes> := [];
    while rest != []
      invariant Lines(zip.stream) == done + Lines(rest)
      invariant forall i :: 0 <= i < |done| ==> PinnedLine(done[i], prefix)
      invariant count == |done|
      decreases |rest|
    {
      var line := StripNewlines(rest[..LineLength(rest)]);
      LinesSplit(done, rest);
      if !PinnedLine(line, prefix) {
        assert Lines(zip.stream)[|done|] == line;
        return Refused;
      }
      done := done + [line];
      count := count + 1;
      rest := rest[LineLength(rest)..];
    }
    return Ok(count);
  }

  // Writing the format, as the registry does, and reading it back.

  predicate IsLocal(local: string) {
    |local| == 7 && AllDigits(local)
  }

  predicate IsAreaCode(areaCode: string) {
    |areaCode| == 3 && AllDigits(areaCode)
  }

  function Print(areaCode: string, locals: seq<string>): Bytes {
    if locals == [] then [] else Prefix(areaCode) + locals[0] + "\n" + Print(areaCode, locals[1..])
  }

  lemma {:induction false} LineLengthOf(line: Bytes, rest: Bytes)
    requires '\n' !in line
    ensures LineLength(line + "\n" + rest) == |line| + 1
  {
    if line == [] {
      assert (line + "\n" + rest)[0] == '\n';
    } else {
      assert (line + "\n" + rest)[0] == line[0];
      assert (line + "\n" + rest)[1..] == line[1..] + "\n" + rest;
      LineLengthOf(line[1..], rest);
    }
  }

  lemma {:induction false} PrintedLine(areaCode: string, local: string)
    requires IsAreaCode(areaCode) && IsLocal(local)
    ensures PinnedLine(Prefix(areaCode) + local, Prefix(areaCode))
    ensures '\n' !in Prefix(areaCode) + local
    ensures StripNewlines(Prefix(areaCode) + local + "\n") == Prefix(areaCode) + local
    ensures NumberOn(areaCode, Prefix(areaCode) + local) == areaCode + local
  {
    var line := Prefix(areaCode) + local;
    assert line[4..] == local;
    assert (line + "\n")[..|line|] == line;
    assert IsDigit(local[6]) && line[|line| - 1] == local[6];
    forall i | 0 <= i < |line| ensures line[i] != '\n' {
      if i < 3 {
        assert IsDigit(areaCode[i]);
      } else if i > 3 {
        assert IsDigit(local[i - 4]);
      }
    }
  }

  lemma {:induction false} PrintedFirst(areaCode: string, locals: seq<string>)
    requires locals != [] && IsAreaCode(areaCode) && IsLocal(locals[0])
    ensures Lines(Print(areaCode, locals)) == [Prefix(areaCode) + locals[0]] + Lines(Print(areaCode, locals[1..]))
  {
    var line, rest, s := Prefix(areaCode) + locals[0], Print(areaCode, locals[1..]), Print(areaCode, locals);
    PrintedLine(areaCode, locals[0]);
    assert s == line + "\n" + rest;
    LineLengthOf(line, rest);
    assert s[..|line| + 1] == line + "\n" && s[|line| + 1..] == rest;
  }

  lemma {:induction false} PrintedLines(areaCode: string, locals: seq<string>)
    requires IsAreaCode(areaCode) && forall i :: 0 <= i < |locals| ==> IsLocal(locals[i])
    ensures Lines(Print(areaCode, locals)) == seq(|locals|, i requires 0 <= i < |locals| => Prefix(areaCode) + locals[i])
  {
    if locals != [] {
      PrintedFirst(areaCode, locals);
      PrintedLines(areaCode, locals[1..]);
    }
  }

  /** Round trip: a printed list is well formed and reads back as exactly the numbers printed. */
  lemma {:induction false} PrintThenRead(areaCode: string, locals: seq<string>, packing: Bytes)
    requires IsAreaCode(areaCode) && forall i :: 0 <= i < |locals| ==> IsLocal(locals[i])
    ensures WellFormed(areaCode, Member(packing, Print(areaCode, locals)))
    ensures Numbers(areaCode, Member(packing, Print(areaCode, locals))) == set local | local in locals :: areaCode + local
  {
    PrintedLines(areaCode, locals);
    var lines := Lines(Print(areaCode, locals));
    forall i | 0 <= i < |lines|
      ensures PinnedLine(lines[i], Prefix(areaCode)) && NumberOn(areaCode, lines[i]) == areaCode + locals[i]
    {
      PrintedLine(areaCode, locals[i]);
    }
    var numbers := Numbers(areaCode, Member(packing, Print(areaCode, locals)));
    forall n | n in numbers ensures n in set local | local in locals :: areaCode + local {
      var i :| 0 <= i < |lines| && n == NumberOn(areaCode, lines[i]);
      assert locals[i] in locals;
    }
    forall local | local in locals ensures areaCode + local in numbers {
      var i :| 0 <= i < |locals| && locals[i] == local;
      assert NumberOn(areaCode, lines[i]) in numbers;
    }
  }

  /** A file with any line on it is well formed for one area code only. */
  lemma {:induction false} OneAreaCode(a: Archive, one: string, other: string)
    requires IsAreaCode(one) && IsAreaCode(other)
    requires WellFormed(one, a) && WellFormed(other, a)
    ensures one == other || a.stream == []
  {
    if a.stream != [] {
      var line := Lines(a.stream)[0];
      assert PinnedLine(line, Prefix(one)) && PinnedLine(line, Prefix(other));
      assert one == line[..3] == other;
    }
  }
}
