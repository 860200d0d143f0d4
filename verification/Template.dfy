/**
 Event placeholders in scripts and notifications: `{{ key }}`.  The program reads them in three
 loops (src/validation.rs:144-179, src/shell.rs:23-53); each is proved against one reading of the
 text, which is its only decomposition into literal parts and placeholders.
 */
module Template {
  import opened Model
  import opened Text

  // ----- searching -----

  predicate OccursAt(text: string, pattern: string, i: nat) {
    i + |pattern| <= |text| && text[i..i + |pattern|] == pattern
  }

  /** The text before and after the first occurrence of a pattern. */
  function SplitOnce(text: string, pattern: string): (r: Option<(string, string)>)
    requires pattern != ""
    ensures r.Some? ==> text == r.value.0 + pattern + r.value.1
    ensures r.Some? ==> forall i: nat :: i < |r.value.0| ==> !OccursAt(text, pattern, i)
    ensures r.None? ==> forall i: nat :: !OccursAt(text, pattern, i)
  {
    if |text| < |pattern| then None
    else if text[..|pattern|] == pattern then Some(("", text[|pattern|..]))
    else
      var r := SplitOnce(text[1..], pattern);
      LaterOccurrences(text, pattern);
      if r.None? then None else Some((text[..1] + r.value.0, r.value.1))
  }

  lemma LaterOccurrences(text: string, pattern: string)
    requires text != ""
    ensures forall i: nat {:trigger OccursAt(text, pattern, i)} :: i > 0 ==>
              OccursAt(text, pattern, i) == OccursAt(text[1..], pattern, i - 1)
  {
    forall i: nat | i > 0 ensures OccursAt(text, pattern, i) == OccursAt(text[1..], pattern, i - 1) {
      if i + |pattern| <= |text| {
        var here, there := text[i..i + |pattern|], text[1..][i - 1..i - 1 + |pattern|];
        assert forall k :: 0 <= k < |here| ==> here[k] == there[k];
      }
    }
  }

  /** Only one decomposition has its pattern nowhere before. */
  lemma SplitOnceUnique(head: string, pattern: string, tail: string)
    requires pattern != "" && forall i: nat :: i < |head| ==> !OccursAt(head + pattern + tail, pattern, i)
    ensures SplitOnce(head + pattern + tail, pattern) == Some((head, tail))
  {
    var text := head + pattern + tail;
    assert text[|head|..|head| + |pattern|] == pattern;
    assert OccursAt(text, pattern, |head|);
    var r := SplitOnce(text, pattern).value;
    assert text[|r.0|..|r.0| + |pattern|] == pattern;
    assert OccursAt(text, pattern, |r.0|);
    assert |r.0| == |head|;
    assert text[..|head|] == head && text[..|r.0|] == r.0;
    assert text[|head| + |pattern|..] == tail && text[|r.0| + |pattern|..] == r.1;
  }

  /** Unicode White_Space, which `trim` removes at both ends. */
  predicate Whitespace(c: char) {
    var u := c as int;
    || 0x9 <= u <= 0xd || u == 0x20 || u == 0x85 || u == 0xa0 || u == 0x1680 || 0x2000 <= u <= 0x200a
    || u == 0x2028 || u == 0x2029 || u == 0x202f || u == 0x205f || u == 0x3000
  }

  function Trim(s: string): (r: string)
    ensures r == "" || (!Whitespace(r[0]) && !Whitespace(r[|r| - 1]))
    decreases |s|
  {
    if s == "" then s
    else if Whitespace(s[0]) then Trim(s[1..])
    else if Whitespace(s[|s| - 1]) then Trim(s[..|s| - 1])
    else s
  }

  /** Trimming drops white space at the ends and nothing else. */
  lemma {:induction false} TrimStrips(s: string) returns (i: nat, j: nat)
    ensures Stripped(s, Trim(s), i, j)
    decreases |s|
  {
    if s == "" {
      return 0, 0;
    } else if Whitespace(s[0]) {
      i, j := TrimStrips(s[1..]);
      i, j := i + 1, j + 1;
    } else if Whitespace(s[|s| - 1]) {
      i, j := TrimStrips(s[..|s| - 1]);
    } else {
      return 0, |s|;
    }
  }

  /** `r` is what is left of `s` between `i` and `j`, and only white space was dropped. */
  ghost predicate Stripped(s: string, r: string, i: nat, j: nat) {
    && i <= j <= |s| && r == s[i..j]
    && (forall k :: 0 <= k < i ==> Whitespace(s[k])) && (forall k :: j <= k < |s| ==> Whitespace(s[k]))
  }

  // ----- the reading of a text -----

  /** Literal text, and the placeholder written after it. */
  datatype Piece = Piece(head: string, raw: string)
  {
    function Key(): string {
      Trim(raw)
    }
  }

  datatype Reading = Reading(pieces: seq<Piece>, last: string)

  /** None when a placeholder is not closed. */
  function Read(text: string): Option<Reading>
    decreases |text|
  {
    match SplitOnce(text, "{{")
    case None => Some(Reading([], text))
    case Some((head, tail)) =>
      match SplitOnce(tail, "}}")
      case None => None
      case Some((raw, next)) => Prefixed([Piece(head, raw)], Read(next))
  }

  function Prefixed(pieces: seq<Piece>, r: Option<Reading>): Option<Reading> {
    if r.None? then None else Some(Reading(pieces + r.value.pieces, r.value.last))
  }

  /** The text a reading stands for. */
  function Written(r: Reading): string
    decreases |r.pieces|
  {
    if r.pieces == [] then r.last
    else r.pieces[0].head + "{{" + (r.pieces[0].raw + "}}" + Written(Reading(r.pieces[1..], r.last)))
  }

  ghost predicate Absent(pattern: string, s: string) {
    forall i: nat :: !OccursAt(s, pattern, i)
  }

  /** No literal part holds or runs into an opening tag, no placeholder a closing tag. */
  ghost predicate Proper(r: Reading) {
    && Absent("{{", r.last)
    && forall p :: p in r.pieces ==> Absent("{{", p.head + "{") && Absent("}}", p.raw + "}")
  }

  lemma SplitIsProper(head: string, c: char, tail: string)
    ensures Absent([c, c], head + [c]) <==>
            forall i: nat :: i < |head| ==> !OccursAt(head + [c, c] + tail, [c, c], i)
  {
    var short, text := head + [c], head + [c, c] + tail;
    forall i: nat | i < |head| ensures OccursAt(short, [c, c], i) == OccursAt(text, [c, c], i) {
      assert short[i..i + 2] == text[i..i + 2];
    }
  }

  lemma SplitHead(text: string, c: char)
    requires SplitOnce(text, [c, c]).Some?
    ensures Absent([c, c], SplitOnce(text, [c, c]).value.0 + [c])
  {
    var r := SplitOnce(text, [c, c]).value;
    SplitIsProper(r.0, c, r.1);
  }

  lemma AbsentMeansNone(text: string, pattern: string)
    requires pattern != "" && Absent(pattern, text)
    ensures SplitOnce(text, pattern).None?
  {
    var r := SplitOnce(text, pattern);
    if r.Some? {
      assert text[|r.value.0|..|r.value.0| + |pattern|] == pattern;
      assert OccursAt(text, pattern, |r.value.0|);
    }
  }

  /** A reading is proper and writes back to the text it was read from. */
  lemma {:induction false} ReadWrites(text: string)
    requires Read(text).Some?
    ensures Proper(Read(text).value) && Written(Read(text).value) == text
    decreases |text|
  {
    if SplitOnce(text, "{{").Some? {
      var (head, tail) := SplitOnce(text, "{{").value;
      var (raw, next) := SplitOnce(tail, "}}").value;
      ReadWrites(next);
      SplitHead(text, '{');
      SplitHead(tail, '}');
      var r := Read(text).value;
      assert r.pieces[0] == Piece(head, raw) && r.pieces[1..] == Read(next).value.pieces;
    }
  }

  /** One more piece in front. */
  lemma ReadPiece(p: Piece, after: string)
    requires Absent("{{", p.head + "{") && Absent("}}", p.raw + "}")
    ensures Read(p.head + "{{" + (p.raw + "}}" + after)) == Prefixed([p], Read(after))
  {
    var tail := p.raw + "}}" + after;
    SplitIsProper(p.head, '{', tail);
    SplitOnceUnique(p.head, "{{", tail);
    SplitIsProper(p.raw, '}', after);
    SplitOnceUnique(p.raw, "}}", after);
  }

  /** A proper reading is what is read from the text it writes. */
  lemma {:induction false} WrittenReads(r: Reading)
    requires Proper(r)
    ensures Read(Written(r)) == Some(r)
    decreases |r.pieces|
  {
    if r.pieces == [] {
      AbsentMeansNone(r.last, "{{");
    } else {
      var p, rest := r.pieces[0], Reading(r.pieces[1..], r.last);
      assert Proper(rest) && p in r.pieces;
      hide Absent;
      WrittenReads(rest);
      ReadPiece(p, Written(rest));
      assert [p] + rest.pieces == r.pieces;
    }
  }

  /** What is read is the only proper reading of the text; there is none exactly when reading fails. */
  lemma ReadExact(text: string, r: Reading)
    ensures Read(text) == Some(r) <==> Proper(r) && Written(r) == text
  {
    if Read(text) == Some(r) { ReadWrites(text); }
    if Proper(r) && Written(r) == text { WrittenReads(r); }
  }

  // ----- what the three loops compute -----

  predicate Supplied(pieces: seq<Piece>, variables: map<string, string>) {
    forall p :: p in pieces ==> p.Key() in variables
  }

  /** Literal parts and inserted strings in turn. */
  function Expand(pieces: seq<Piece>, inserted: seq<string>): string
    requires |pieces| == |inserted|
    decreases |pieces|
  {
    if pieces == [] then ""
    else
      var n := |pieces| - 1;
      Expand(pieces[..n], inserted[..n]) + pieces[n].head + inserted[n]
  }

  function Values(pieces: seq<Piece>, variables: map<string, string>): (v: seq<string>)
    requires Supplied(pieces, variables)
    ensures |v| == |pieces|
  {
    seq(|pieces|, i requires 0 <= i < |pieces| => variables[pieces[i].Key()])
  }

  function Name(i: nat): string {
    "ARCRELAY_EVENT_" + Decimal(i)
  }

  /** How a script refers to an environment variable. */
  function Token(i: nat, powershell: bool): string {
    if powershell then "$env:" + Name(i) else "${" + Name(i) + "}"
  }

  function Tokens(n: nat, powershell: bool): (v: seq<string>)
    ensures |v| == n
  {
    seq(n, i requires 0 <= i < n => Token(i, powershell))
  }

  function Rendered(text: string, variables: map<string, string>): Result<string> {
    match Read(text)
    case None => Err(Invalid)
    case Some(r) =>
      if Supplied(r.pieces, variables) then Ok(Expand(r.pieces, Values(r.pieces, variables)) + r.last) else Err(Invalid)
  }

  datatype Script = Script(text: string, env: map<string, string>)

  function Environment(pieces: seq<Piece>, variables: map<string, string>): (env: map<string, string>)
    requires Supplied(pieces, variables)
    decreases |pieces|
  {
    if pieces == [] then map[]
    else
      var n := |pieces| - 1;
      Environment(pieces[..n], variables)[Name(n) := variables[pieces[n].Key()]]
  }

  function Prepared(text: string, variables: map<string, string>, powershell: bool): Result<Script> {
    match Read(text)
    case None => Err(Invalid)
    case Some(r) =>
      if Supplied(r.pieces, variables) then
        Ok(Script(Expand(r.pieces, Tokens(|r.pieces|, powershell)) + r.last, Environment(r.pieces, variables)))
      else Err(Invalid)
  }

  // ----- spaces in a placeholder -----

  lemma {:induction false} TrimPads(before: string, key: string, behind: string)
    requires key != "" && !Whitespace(key[0]) && !Whitespace(key[|key| - 1])
    requires (forall c :: c in before ==> Whitespace(c)) && (forall c :: c in behind ==> Whitespace(c))
    ensures Trim(before + key + behind) == key
    decreases |before| + |behind|
  {
    var s := before + key + behind;
    if before != "" {
      assert s[0] == before[0] && s[1..] == before[1..] + key + behind;
      TrimPads(before[1..], key, behind);
    } else if behind != "" {
      var n := |behind| - 1;
      assert s[0] == key[0] && s[|s| - 1] == behind[n] && s[..|s| - 1] == before + key + behind[..n];
      TrimPads(before, key, behind[..n]);
    } else {
      assert s == key;
    }
  }

  /** White space around the key of a placeholder does not matter: the variable of that name is inserted. */
  lemma PaddedPlaceholder(before: string, key: string, behind: string, variables: map<string, string>)
    requires key != "" && !Whitespace(key[0]) && !Whitespace(key[|key| - 1]) && Absent("}}", before + key + behind + "}")
    requires (forall c :: c in before ==> Whitespace(c)) && (forall c :: c in behind ==> Whitespace(c))
    ensures Rendered("{{" + (before + key + behind + "}}"), variables) ==
            if key in variables then Ok(variables[key]) else Err(Invalid)
  {
    var p := Piece("", before + key + behind);
    var r := Reading([p], "");
    TrimPads(before, key, behind);
    assert Written(Reading(r.pieces[1..], "")) == "";
    assert Written(r) == "{{" + (before + key + behind + "}}");
    WrittenReads(r);
    assert p in r.pieces && p.Key() == key;
    if key in variables {
      assert Values([p], variables) == [variables[key]];
      assert [p][..0] == [] && [variables[key]][..0] == [];
      assert Expand([p], [variables[key]]) + "" == variables[key];
    } else {
      assert !Supplied(r.pieces, variables);
    }
  }

  // ----- environment names -----

  lemma NameInjective(i: nat, j: nat)
    requires Name(i) == Name(j)
    ensures i == j
  {
    assert Name(i)[15..] == Decimal(i) && Name(j)[15..] == Decimal(j);
    DecimalInjective(i, j);
  }

  lemma {:induction false} EnvironmentNames(pieces: seq<Piece>, variables: map<string, string>)
    requires Supplied(pieces, variables)
    ensures forall s :: s in Environment(pieces, variables) ==> exists i: nat :: i < |pieces| && s == Name(i)
    decreases |pieces|
  {
    if pieces != [] {
      var n := |pieces| - 1;
      EnvironmentNames(pieces[..n], variables);
      forall s | s in Environment(pieces, variables) ensures exists i: nat :: i < |pieces| && s == Name(i) {
        if s in Environment(pieces[..n], variables) {
          var i: nat :| i < n && s == Name(i);
        }
      }
    }
  }

  /** The next name is not in use: nothing is overwritten. */
  lemma NameIsNew(pieces: seq<Piece>, variables: map<string, string>)
    requires Supplied(pieces, variables)
    ensures Name(|pieces|) !in Environment(pieces, variables)
  {
    EnvironmentNames(pieces, variables);
    if Name(|pieces|) in Environment(pieces, variables) {
      var i: nat :| i < |pieces| && Name(|pieces|) == Name(i);
      NameInjective(|pieces|, i);
    }
  }

  lemma OneMoreKey<K, V>(m: map<K, V>, k: K, v: V)
    requires k !in m
    ensures |m[k := v]| == |m| + 1
  {
    assert m[k := v].Keys == m.Keys + {k};
  }

  lemma StillHolds(pieces: seq<Piece>, variables: map<string, string>, i: nat)
    requires Supplied(pieces, variables) && i < |pieces| - 1
    requires Holds(pieces[..|pieces| - 1], variables, Environment(pieces[..|pieces| - 1], variables), i)
    ensures Holds(pieces, variables, Environment(pieces, variables), i)
  {
    if Name(i) == Name(|pieces| - 1) { NameInjective(i, |pieces| - 1); }
  }

  lemma {:induction false} EnvironmentHolds(pieces: seq<Piece>, variables: map<string, string>, i: nat)
    requires Supplied(pieces, variables) && i < |pieces|
    ensures Holds(pieces, variables, Environment(pieces, variables), i)
    decreases |pieces|
  {
    if i < |pieces| - 1 {
      EnvironmentHolds(pieces[..|pieces| - 1], variables, i);
      StillHolds(pieces, variables, i);
    }
  }

  lemma {:induction false} EnvironmentSize(pieces: seq<Piece>, variables: map<string, string>)
    requires Supplied(pieces, variables)
    ensures |Environment(pieces, variables)| == |pieces|
    decreases |pieces|
  {
    if pieces != [] {
      var n := |pieces| - 1;
      EnvironmentSize(pieces[..n], variables);
      NameIsNew(pieces[..n], variables);
      OneMoreKey(Environment(pieces[..n], variables), Name(n), variables[pieces[n].Key()]);
    }
  }

  /** `k` placeholders take `k` names, the numbers below `k`, and each keeps its own value. */
  lemma EnvironmentExact(pieces: seq<Piece>, variables: map<string, string>)
    requires Supplied(pieces, variables)
    ensures |Environment(pieces, variables)| == |pieces|
    ensures forall i: nat :: i < |pieces| ==> Holds(pieces, variables, Environment(pieces, variables), i)
  {
    EnvironmentSize(pieces, variables);
    forall i: nat | i < |pieces| ensures Holds(pieces, variables, Environment(pieces, variables), i) {
      EnvironmentHolds(pieces, variables, i);
    }
  }

  /** The environment gives the value of placeholder `i` under its own name. */
  predicate Holds(pieces: seq<Piece>, variables: map<string, string>, env: map<string, string>, i: nat)
    requires Supplied(pieces, variables) && i < |pieces|
  {
    Name(i) in env && env[Name(i)] == variables[pieces[i].Key()]
  }

  // ----- the loops -----

  /** What is still to be read, after the pieces read so far. */
  predicate Left(text: string, done: seq<Piece>, rest: string) {
    Read(text) == Prefixed(done, Read(rest))
  }

  lemma AllLeft(text: string)
    ensures Left(text, [], text)
  {
    var r := Read(text);
    if r.Some? {
      assert [] + r.value.pieces == r.value.pieces;
    }
  }

  /** The placeholder a round of the loop finds; None when it is not closed. */
  function Found(rest: string): Option<(Piece, string)>
    requires SplitOnce(rest, "{{").Some?
  {
    var (head, tail) := SplitOnce(rest, "{{").value;
    match SplitOnce(tail, "}}")
    case None => None
    case Some((raw, next)) => Some((Piece(head, raw), next))
  }

  /** An opening tag ends the reading, or is one more piece of it. */
  lemma NextPiece(text: string, done: seq<Piece>, rest: string)
    requires Left(text, done, rest) && SplitOnce(rest, "{{").Some?
    ensures Found(rest).None? ==> Read(text).None?
    ensures Found(rest).Some? ==>
              && Left(text, done + [Found(rest).value.0], Found(rest).value.1)
              && (Read(text).Some? ==> Found(rest).value.0 in Read(text).value.pieces)
  {
    if Found(rest).Some? {
      var (p, next) := Found(rest).value;
      var r := Read(next);
      if r.Some? {
        assert done + ([p] + r.value.pieces) == done + [p] + r.value.pieces;
        assert Read(text).value.pieces[|done|] == p;
      }
    }
  }

  lemma NothingLeft(text: string, done: seq<Piece>, rest: string)
    requires Left(text, done, rest) && SplitOnce(rest, "{{").None?
    ensures Read(text) == Some(Reading(done, rest))
  {
    assert done + [] == done;
  }

  lemma ExpandMore(done: seq<Piece>, p: Piece, inserted: seq<string>, s: string)
    requires |done| == |inserted|
    ensures Expand(done + [p], inserted + [s]) == Expand(done, inserted) + p.head + s
  {
    assert (done + [p])[..|done|] == done && (inserted + [s])[..|done|] == inserted;
  }

  lemma ValuesMore(done: seq<Piece>, p: Piece, variables: map<string, string>)
    requires Supplied(done + [p], variables)
    ensures Supplied(done, variables) && p.Key() in variables
    ensures Expand(done + [p], Values(done + [p], variables)) ==
            Expand(done, Values(done, variables)) + p.head + variables[p.Key()]
  {
    assert forall q :: q in done ==> q in done + [p];
    assert (done + [p])[|done|] == p;
    assert Values(done + [p], variables) == Values(done, variables) + [variables[p.Key()]];
    ExpandMore(done, p, Values(done, variables), variables[p.Key()]);
  }

  lemma TokensNext(n: nat, powershell: bool)
    ensures Tokens(n + 1, powershell) == Tokens(n, powershell) + [Token(n, powershell)]
  {
    forall i | 0 <= i < n ensures Tokens(n + 1, powershell)[i] == Tokens(n, powershell)[i] {
    }
  }

  lemma TokensMore(done: seq<Piece>, p: Piece, powershell: bool)
    ensures Expand(done + [p], Tokens(|done| + 1, powershell)) ==
            Expand(done, Tokens(|done|, powershell)) + p.head + Token(|done|, powershell)
  {
    TokensNext(|done|, powershell);
    ExpandMore(done, p, Tokens(|done|, powershell), Token(|done|, powershell));
  }

  lemma EnvironmentMore(done: seq<Piece>, p: Piece, variables: map<string, string>)
    requires Supplied(done, variables) && p.Key() in variables
    ensures Environment(done + [p], variables) == Environment(done, variables)[Name(|done|) := variables[p.Key()]]
  {
    assert (done + [p])[..|done|] == done;
  }

  method ValidateVariables(text: string, trigger: Trigger) returns (r: Result<()>)
    ensures r == if Accepted(text, trigger) then Ok(()) else Err(Invalid)
  {
    var allowed := AvailableVariables(trigger);
    var rest := text;
    ghost var done: seq<Piece> := [];
    AllLeft(text);
    while SplitOnce(rest, "{{").Some?
      invariant Left(text, done, rest)
      invariant forall p :: p in done ==> p.Key() in allowed
      decreases |rest|
    {
      NextPiece(text, done, rest);
      var (head, tail) := SplitOnce(rest, "{{").value;
      var split := SplitOnce(tail, "}}");
      if split.None? {
        return Err(Invalid);
      }
      var (raw, next) := split.value;
      if Trim(raw) !in allowed {
        assert Found(rest).value.0.Key() !in allowed;
        return Err(Invalid);
      }
      done := done + [Piece(head, raw)];
      rest := next;
    }
    NothingLeft(text, done, rest);
    r := Ok(());
  }

  method RenderText(text: string, event: Event) returns (r: Result<string>)
    ensures r == Rendered(text, event.variables)
  {
    var output := "";
    var rest := text;
    ghost var done: seq<Piece> := [];
    AllLeft(text);
    while SplitOnce(rest, "{{").Some?
      invariant Left(text, done, rest)
      invariant Supplied(done, event.variables)
      invariant output == Expand(done, Values(done, event.variables))
      decreases |rest|
    {
      NextPiece(text, done, rest);
      var (head, tail) := SplitOnce(rest, "{{").value;
      var split := SplitOnce(tail, "}}");
      if split.None? {
        return Err(Invalid);
      }
      output := output + head;
      var (raw, next) := split.value;
      ghost var p := Piece(head, raw);
      if Trim(raw) !in event.variables {
        assert p == Found(rest).value.0 && p.Key() !in event.variables;
        return Err(Invalid);
      }
      output := output + event.variables[Trim(raw)];
      ValuesMore(done, p, event.variables);
      done := done + [p];
      rest := next;
    }
    NothingLeft(text, done, rest);
    output := output + rest;
    r := Ok(output);
  }

  method PrepareScript(script: string, event: Event, powershell: bool) returns (r: Result<Script>)
    ensures r == Prepared(script, event.variables, powershell)
  {
    var output := "";
    var env: map<string, string> := map[];
    var rest := script;
    ghost var done: seq<Piece> := [];
    AllLeft(script);
    while SplitOnce(rest, "{{").Some?
      invariant Left(script, done, rest)
      invariant Supplied(done, event.variables)
      invariant output == Expand(done, Tokens(|done|, powershell))
      invariant env == Environment(done, event.variables)
      decreases |rest|
    {
      NextPiece(script, done, rest);
      var (head, tail) := SplitOnce(rest, "{{").value;
      var split := SplitOnce(tail, "}}");
      if split.None? {
        return Err(Invalid);
      }
      var (raw, next) := split.value;
      ghost var p := Piece(head, raw);
      if Trim(raw) !in event.variables {
        assert p == Found(rest).value.0 && p.Key() !in event.variables;
        return Err(Invalid);
      }
      EnvironmentExact(done, event.variables);
      var name := "ARCRELAY_EVENT_" + Decimal(|env|);
      output := output + head;
      output := output + if powershell then "$env:" + name else "${" + name + "}";
      env := env[name := event.variables[Trim(raw)]];
      TokensMore(done, p, powershell);
      EnvironmentMore(done, p, event.variables);
      done := done + [p];
      rest := next;
    }
    NothingLeft(script, done, rest);
    output := output + rest;
    r := Ok(Script(output, env));
  }

  // ----- agreement -----

  function AvailableVariables(trigger: Trigger): seq<string> {
    match trigger
    case Bluetooth(_) =>
      ["event.bluetooth.deviceId", "event.bluetooth.deviceName", "event.bluetooth.rssi", "event.bluetooth.reason"]
    case Application => ["event.app.name", "event.app.path", "event.app.id"]
    case Device => ["event.device.name", "event.device.id"]
    case Transfer(received) =>
      if received then
        ["event.device.name", "event.device.id", "event.file.directory", "event.file.count", "event.file.firstPath"]
      else ["event.device.name", "event.device.id", "event.file.count"]
    case Schedule(_, _, _, _) => ["event.schedule.plannedAt", "event.schedule.actualAt"]
    case Presence => ["event.presence.state", "event.presence.faceCount", "event.presence.ownerSimilarity"]
    case _ => []
  }

  predicate Accepted(text: string, trigger: Trigger) {
    Read(text).Some? && forall p :: p in Read(text).value.pieces ==> p.Key() in AvailableVariables(trigger)
  }

  ghost predicate Supplies(variables: map<string, string>, trigger: Trigger) {
    forall key :: key in AvailableVariables(trigger) ==> key in variables
  }

  /** A text is accepted for a trigger exactly when it renders, and when it can be prepared as a script, for every
      event that supplies the trigger's variables. */
  lemma AcceptedIsRenderable(text: string, trigger: Trigger, powershell: bool)
    ensures Accepted(text, trigger) <==> forall v :: Supplies(v, trigger) ==> Rendered(text, v).Ok?
    ensures Accepted(text, trigger) <==> forall v :: Supplies(v, trigger) ==> Prepared(text, v, powershell).Ok?
  {
    if !Accepted(text, trigger) {
      var v := map key | key in AvailableVariables(trigger) :: "";
      assert Supplies(v, trigger) && Rendered(text, v).Err? && Prepared(text, v, powershell).Err?;
    }
  }

  /** Where the tokens are, in a script that holds nothing else after the last piece. */
  function Offsets(pieces: seq<Piece>, powershell: bool): (at: seq<nat>)
    ensures |at| == |pieces|
    decreases |pieces|
  {
    if pieces == [] then []
    else
      var n := |pieces| - 1;
      Offsets(pieces[..n], powershell) + [|Expand(pieces[..n], Tokens(n, powershell))| + |pieces[n].head|]
  }

  /** Replaces the token found at each offset by its value; None when a token or its value is missing. */
  function Substituted(script: string, at: seq<nat>, env: map<string, string>, powershell: bool): Option<string>
    decreases |at|
  {
    if at == [] then Some(script)
    else
      var n := |at| - 1;
      var token := Token(n, powershell);
      if OccursAt(script, token, at[n]) && Name(n) in env then
        var before := Substituted(script[..at[n]], at[..n], env, powershell);
        if before.None? then None else Some(before.value + env[Name(n)] + script[at[n] + |token|..])
      else None
  }

  lemma {:induction false} TokensStandForValues(
      pieces: seq<Piece>, last: string, variables: map<string, string>, env: map<string, string>, powershell: bool)
    requires Supplied(pieces, variables) && forall i: nat :: i < |pieces| ==> Holds(pieces, variables, env, i)
    ensures Substituted(Expand(pieces, Tokens(|pieces|, powershell)) + last, Offsets(pieces, powershell), env, powershell) ==
            Some(Expand(pieces, Values(pieces, variables)) + last)
    decreases |pieces|
  {
    if pieces != [] {
      var n := |pieces| - 1;
      var before, p, token := pieces[..n], pieces[n], Token(n, powershell);
      assert before + [p] == pieces;
      forall i: nat | i < n ensures Holds(before, variables, env, i) {
        assert Holds(pieces, variables, env, i);
      }
      TokensStandForValues(before, p.head, variables, env, powershell);
      TokensMore(before, p, powershell);
      ValuesMore(before, p, variables);
      assert Holds(pieces, variables, env, n);
      TokenAt(Expand(before, Tokens(n, powershell)) + p.head, token, last);
    } else {
      assert "" + last == last;
    }
  }

  lemma TokenAt(before: string, token: string, last: string)
    ensures OccursAt(before + token + last, token, |before|)
    ensures (before + token + last)[..|before|] == before
    ensures (before + token + last)[|before| + |token|..] == last
  {
  }

  /** A script and a rendered text agree: both succeed or neither does, and putting the values of the environment back
      in place of the inserted tokens gives the rendered text. */
  lemma ScriptStandsForText(text: string, variables: map<string, string>, powershell: bool)
    ensures Rendered(text, variables).Ok? <==> Prepared(text, variables, powershell).Ok?
    ensures Prepared(text, variables, powershell).Ok? ==>
              var script, r := Prepared(text, variables, powershell).value, Read(text).value;
              && |script.env| == |r.pieces|
              && Substituted(script.text, Offsets(r.pieces, powershell), script.env, powershell) ==
                 Some(Rendered(text, variables).value)
  {
    if Prepared(text, variables, powershell).Ok? {
      var r := Read(text).value;
      var env := Environment(r.pieces, variables);
      EnvironmentExact(r.pieces, variables);
      TokensStandForValues(r.pieces, r.last, variables, env, powershell);
    }
  }

  /** Event data never reaches the code: for any two events the script and its environment names are the same. */
  lemma ScriptIgnoresValues(text: string, v: map<string, string>, w: map<string, string>, powershell: bool)
    requires Prepared(text, v, powershell).Ok? && Prepared(text, w, powershell).Ok?
    ensures Prepared(text, v, powershell).value.text == Prepared(text, w, powershell).value.text
    ensures Prepared(text, v, powershell).value.env.Keys == Prepared(text, w, powershell).value.env.Keys
  {
    var pieces := Read(text).value.pieces;
    EnvironmentNames(pieces, v);
    EnvironmentNames(pieces, w);
    EnvironmentExact(pieces, v);
    EnvironmentExact(pieces, w);
    forall s ensures s in Environment(pieces, v) <==> s in Environment(pieces, w) {
      if s in Environment(pieces, v) {
        var i: nat :| i < |pieces| && s == Name(i);
        assert Holds(pieces, w, Environment(pieces, w), i);
      }
      if s in Environment(pieces, w) {
        var i: nat :| i < |pieces| && s == Name(i);
        assert Holds(pieces, v, Environment(pieces, v), i);
      }
    }
  }
}
