/**
 * The metric log line, written as `header**@latency_metrics@name@value@name@value…`, and the parser of the
 * training scripts: one line after another, cut at the marker, split at '@', names and values put in a
 * dictionary, integers and JSON objects read.
 * JSON texts and floats are kept as text.
 */
module LogFrame {
  import opened Collections

  const MARKER := "**@latency_metrics@"
  const TAG := "latency_metrics"

  datatype Value = Int(n: int) | Json(text: string) | Text(text: string)
  datatype Parsed = Row(columns: seq<string>, row: map<string, Value>) | Fails

  // --- writing -------------------------------------------------------------------------------------------

  function Join(tokens: seq<string>): string
    requires tokens != []
  {
    if |tokens| == 1 then tokens[0] else tokens[0] + "@" + Join(tokens[1..])
  }

  function Tokens(fields: seq<(string, string)>): seq<string> {
    if fields == [] then [] else [fields[0].0, fields[0].1] + Tokens(fields[1..])
  }

  function Line(header: string, fields: seq<(string, string)>): string
    requires fields != []
  {
    header + MARKER + Join(Tokens(fields))
  }

  function Digit(d: nat): char
    requires d < 10
  {
    '0' + d as char
  }

  function Decimal(n: int): string
    decreases n < 0, if n < 0 then 0 else n
  {
    if n < 0 then "-" + Decimal(-n)
    else if n < 10 then [Digit(n)]
    else Decimal(n / 10) + [Digit(n % 10)]
  }

  // --- reading ----------------------------------------------------------------------------------------------

  predicate Occurs(s: string, pattern: string, k: nat) { k + |pattern| <= |s| && s[k..k + |pattern|] == pattern }

  /** The first occurrence at or after `from`. */
  function Find(s: string, pattern: string, from: nat): (r: Option<nat>)
    ensures r.Some? ==> from <= r.value && Occurs(s, pattern, r.value)
    ensures r.Some? ==> forall k :: from <= k < r.value ==> !Occurs(s, pattern, k)
    ensures r.None? ==> forall k :: from <= k ==> !Occurs(s, pattern, k)
    decreases |s| - from
  {
    if from + |pattern| > |s| then None
    else if Occurs(s, pattern, from) then Some(from)
    else Find(s, pattern, from + 1)
  }

  /** The text between the first two markers. Without a marker the script indexes past the end of the split. */
  function Payload(line: string): Option<string> {
    if Find(line, "**@", 0).None? then Some(line)
    else match Find(line, MARKER, 0)
      case None => None
      case Some(i) =>
        var rest := line[i + |MARKER|..];
        match Find(rest, MARKER, 0)
        case None => Some(rest)
        case Some(j) => Some(rest[..j])
  }

  function Split(s: string): seq<string>
    decreases |s|
  {
    match Find(s, "@", 0)
    case None => [s]
    case Some(i) => [s[..i]] + Split(s[i + 1..])
  }

  /** The ASCII characters that Python takes for white space. */
  predicate Space(c: char) { c == ' ' || 9 <= c as int <= 13 || 28 <= c as int <= 31 }

  function Strip(s: string): string {
    if s != "" && Space(s[0]) then Strip(s[1..])
    else if s != "" && Space(s[|s| - 1]) then Strip(s[..|s| - 1])
    else s
  }

  predicate IsDigit(c: char) { '0' <= c <= '9' }

  /** Digits, with single underscores allowed between them. */
  function Natural(s: string): Option<nat> {
    if s == "" || !IsDigit(s[|s| - 1]) then None
    else
      var d, front := (s[|s| - 1] - '0') as nat, s[..|s| - 1];
      if front == "" then Some(d)
      else
        var kept := if front[|front| - 1] == '_' then front[..|front| - 1] else front;
        match Natural(kept)
        case None => None
        case Some(n) => Some(10 * n + d)
  }

  function Signed(t: string): Option<int> {
    var signed := t != "" && (t[0] == '-' || t[0] == '+');
    match Natural(if signed then t[1..] else t)
    case None => None
    case Some(n) => var m: int := n; if signed && t[0] == '-' then Some(-m) else Some(m)
  }

  function Integer(s: string): Option<int> { Signed(Strip(s)) }

  function Read(s: string): Value {
    if s != "" && s[0] == '{' && s[|s| - 1] == '}' then Json(s)
    else match Integer(s) case Some(n) => Int(n) case None => Text(s)
  }

  function Columns(parts: seq<string>): seq<string>
    requires |parts| % 2 == 0
  {
    if parts == [] then [] else Columns(parts[..|parts| - 2]) + [parts[|parts| - 2]]
  }

  /** The script's dictionary: a name that comes again overwrites its value. */
  function Dict(parts: seq<string>): map<string, Value>
    requires |parts| % 2 == 0
  {
    if parts == [] then map[]
    else Dict(parts[..|parts| - 2])[parts[|parts| - 2] := Read(parts[|parts| - 1])]
  }

  /** An odd number of parts makes the script index past the end. */
  function Pair(parts: seq<string>): Parsed {
    if |parts| % 2 == 1 then Fails else Row(Columns(parts), Dict(parts))
  }

  function Parse(line: string): Parsed {
    if Find(line, TAG, 0).None? then Fails
    else match Payload(line)
      case None => Fails
      case Some(text) => Pair(Split(text))
  }

  // --- round trip ----------------------------------------------------------------------------------------------

  predicate Plain(s: string) { '@' !in s }

  predicate AllPlain(tokens: seq<string>) { forall i :: 0 <= i < |tokens| ==> Plain(tokens[i]) }

  predicate EndsStarred(s: string) { |s| >= 2 && s[|s| - 2..] == "**" }

  /** Tokens i and i+1, with the separators around them, spell the marker again. */
  predicate Respells(tokens: seq<string>, i: nat) {
    i + 2 < |tokens| && EndsStarred(tokens[i]) && tokens[i + 1] == TAG
  }

  lemma OccursAt(s: string, pattern: string, k: nat, i: nat)
    requires Occurs(s, pattern, k) && i < |pattern|
    ensures s[k + i] == pattern[i]
  {
    assert s[k..k + |pattern|][i] == s[k + i];
  }

  lemma SeparatorAt(s: string, k: nat)
    ensures Occurs(s, "@", k) <==> k < |s| && s[k] == '@'
  {
    if k < |s| { assert s[k..k + 1] == [s[k]]; }
  }

  lemma FindSeparator(first: string, rest: string)
    requires Plain(first)
    ensures Find(first + "@" + rest, "@", 0) == Some(|first|)
  {
    var s := first + "@" + rest;
    forall k | 0 <= k <= |first| ensures Occurs(s, "@", k) <==> k == |first| { SeparatorAt(s, k); }
    assert Occurs(s, "@", |first|);
  }

  lemma SplitPlain(s: string)
    requires Plain(s)
    ensures Split(s) == [s]
  {
    forall k: nat ensures !Occurs(s, "@", k) { SeparatorAt(s, k); }
  }

  /** Splitting undoes joining. */
  lemma {:induction false} SplitJoin(tokens: seq<string>)
    requires tokens != [] && AllPlain(tokens)
    ensures Split(Join(tokens)) == tokens
  {
    if |tokens| == 1 {
      SplitPlain(tokens[0]);
    } else {
      var first, rest := tokens[0], Join(tokens[1..]);
      FindSeparator(first, rest);
      SplitJoin(tokens[1..]);
      assert (first + "@" + rest)[..|first|] == first && (first + "@" + rest)[|first| + 1..] == rest;
    }
  }

  /** Splitting cuts at every separator and nowhere else. */
  lemma {:induction false} JoinSplit(s: string)
    ensures Split(s) != [] && AllPlain(Split(s)) && Join(Split(s)) == s
    decreases |s|
  {
    var found := Find(s, "@", 0);
    if found.None? {
      forall k | 0 <= k < |s| ensures s[k] != '@' { SeparatorAt(s, k); }
    } else {
      var i := found.value;
      JoinSplit(s[i + 1..]);
      SeparatorAt(s, i);
      forall k | 0 <= k < i ensures s[..i][k] != '@' { SeparatorAt(s, k); }
      assert s == s[..i] + "@" + s[i + 1..];
    }
  }

  ghost predicate Contains(s: string, pattern: string) { exists k: nat :: Occurs(s, pattern, k) }

  /** A line with two markers, or one, split around the text that is read. */
  ghost predicate FramedBy(line: string, before: string, text: string, after: string) {
    && line == before + MARKER + text + after && Find(line, MARKER, 0) == Some(|before|)
    && if after == "" then !Contains(text, MARKER) else Find(text + after, MARKER, 0) == Some(|text|)
  }

  lemma FramedPayload(line: string, before: string, text: string, after: string)
    requires Contains(line, "**@") && FramedBy(line, before, text, after)
    ensures Payload(line) == Some(text)
  {
    assert line[|before| + |MARKER|..] == text + after;
    assert (text + after)[..|text|] == text;
    if after == "" { assert text + after == text; }
  }

  /** Which text of a line is read: all of it without "**@", else what lies between the first two markers. */
  lemma ParseCases(line: string)
    ensures !Contains(line, "latency_metrics") ==> Parse(line) == Fails
    ensures Contains(line, "latency_metrics") && !Contains(line, "**@") ==> Parse(line) == Pair(Split(line))
    ensures Contains(line, "**@") && !Contains(line, "**@latency_metrics@") ==> Parse(line) == Fails
    ensures Contains(line, "latency_metrics") && Contains(line, "**@") ==>
      forall before, text, after :: FramedBy(line, before, text, after) ==> Parse(line) == Pair(Split(text))
  {
    if Contains(line, "latency_metrics") && Contains(line, "**@") {
      forall before, text, after | FramedBy(line, before, text, after) ensures Parse(line) == Pair(Split(text)) {
        FramedPayload(line, before, text, after);
      }
    }
  }

  /** A separator in front of the rest of the line. */
  lemma JoinParts(tokens: seq<string>)
    requires |tokens| > 1
    ensures var body, first, rest := Join(tokens), tokens[0], Join(tokens[1..]);
      && body == first + "@" + rest && body[|first|] == '@' && body[|first| + 1..] == rest && body[..|first|] == first
  {
  }

  lemma OccursLater(s: string, pattern: string, cut: nat, k: nat)
    requires cut <= k && cut <= |s|
    ensures Occurs(s, pattern, k) <==> Occurs(s[cut..], pattern, k - cut)
  {
    if k + |pattern| <= |s| { assert s[cut..][k - cut..k - cut + |pattern|] == s[k..k + |pattern|]; }
  }

  /** A line that starts with a word and a separator has the word as its first token. */
  lemma FirstToken(tokens: seq<string>, word: string, tail: string)
    requires tokens != [] && AllPlain(tokens) && Plain(word) && Join(tokens) == word + "@" + tail
    ensures |tokens| > 1 && tokens[0] == word
  {
    FindSeparator(word, tail);
    assert Join(tokens)[|word|] == '@';
    if |tokens| > 1 {
      JoinParts(tokens);
      FindSeparator(tokens[0], Join(tokens[1..]));
      assert (word + "@" + tail)[..|word|] == word;
    }
  }

  lemma MarkerText(s: string, k: nat)
    requires Occurs(s, MARKER, k)
    ensures k + 19 <= |s| && s[k] == '*' && s[k + 1] == '*' && s[k + 2] == '@'
    ensures s[k + 3..] == TAG + "@" + s[k + 19..]
  {
    OccursAt(s, MARKER, k, 0);
    OccursAt(s, MARKER, k, 1);
    OccursAt(s, MARKER, k, 2);
    assert MARKER == "**@" + (TAG + "@");
    assert s[k..k + 19] == MARKER;
    assert s[k..k + 19][3..] == s[k + 3..k + 19];
    assert s[k + 3..] == s[k + 3..k + 19] + s[k + 19..];
  }

  /** The marker's separator is the one after the first token. */
  lemma RespellsHere(tokens: seq<string>, k: nat)
    requires |tokens| > 1 && AllPlain(tokens) && Occurs(Join(tokens), MARKER, k) && k + 2 == |tokens[0]|
    ensures Respells(tokens, 0) && Join(tokens)[..k] == tokens[0][..k]
  {
    var body, first := Join(tokens), tokens[0];
    JoinParts(tokens);
    MarkerText(body, k);
    assert first[k..] == "**";
    FirstToken(tokens[1..], TAG, body[k + 19..]);
  }

  lemma JoinCons(first: string, rest: seq<string>)
    requires rest != []
    ensures Join([first] + rest) == first + "@" + Join(rest)
  {
    assert ([first] + rest)[1..] == rest;
  }

  function Clipped(tokens: seq<string>, i: nat): seq<string>
    requires Respells(tokens, i)
  {
    tokens[..i] + [tokens[i][..|tokens[i]| - 2]]
  }

  lemma RespellsLater(tokens: seq<string>, j: nat, k: nat)
    requires |tokens| > 1 && Respells(tokens[1..], j) && |tokens[0]| < k <= |Join(tokens)|
    requires Join(tokens[1..])[..k - |tokens[0]| - 1] == Join(Clipped(tokens[1..], j))
    ensures Respells(tokens, j + 1) && Join(tokens)[..k] == Join(Clipped(tokens, j + 1))
  {
    var body, first := Join(tokens), tokens[0];
    JoinParts(tokens);
    var cut := Clipped(tokens[1..], j);
    JoinCons(first, cut);
    assert Clipped(tokens, j + 1) == [first] + cut;
    assert body[..k] == first + "@" + Join(tokens[1..])[..k - |first| - 1];
  }

  /** Wherever the marker occurs in a joined line, two tokens spell it. */
  lemma {:induction false} OccurrenceRespells(tokens: seq<string>, k: nat) returns (i: nat)
    requires tokens != [] && AllPlain(tokens) && Occurs(Join(tokens), MARKER, k)
    ensures Respells(tokens, i) && Join(tokens)[..k] == Join(Clipped(tokens, i))
    decreases |tokens|
  {
    MarkerText(Join(tokens), k);
    assert |tokens| > 1;
    JoinParts(tokens);
    if k + 2 == |tokens[0]| {
      i := 0;
      RespellsHere(tokens, k);
      assert Clipped(tokens, 0) == [tokens[0][..k]];
    } else {
      assert k > |tokens[0]|;
      OccursLater(Join(tokens), MARKER, |tokens[0]| + 1, k);
      var j := OccurrenceRespells(tokens[1..], k - |tokens[0]| - 1);
      RespellsLater(tokens, j, k);
      i := j + 1;
    }
  }

  lemma OccursBetween(before: string, pattern: string, after: string)
    ensures Occurs(before + pattern + after, pattern, |before|)
  {
  }

  lemma Regrouped(front: string, rest: string)
    ensures (front + "**") + "@" + (TAG + "@" + rest) == front + MARKER + rest
  {
    assert MARKER == "**" + "@" + TAG + "@";
  }

  lemma {:induction false} RespellsOccurs(tokens: seq<string>, i: nat) returns (k: nat)
    requires Respells(tokens, i)
    ensures Occurs(Join(tokens), MARKER, k)
    decreases i
  {
    JoinParts(tokens);
    if i == 0 {
      JoinParts(tokens[1..]);
      var front, rest := tokens[0][..|tokens[0]| - 2], Join(tokens[1..][1..]);
      assert tokens[0] == front + "**";
      Regrouped(front, rest);
      OccursBetween(front, MARKER, rest);
      k := |front|;
    } else {
      var j := RespellsOccurs(tokens[1..], i - 1);
      k := j + |tokens[0]| + 1;
      OccursLater(Join(tokens), MARKER, |tokens[0]| + 1, k);
    }
  }

  /** The marker does not overlap itself. */
  lemma NoOverlap(header: string, body: string, k: nat)
    requires k < |header| && Occurs(header + MARKER + body, MARKER, k)
    ensures Occurs(header, MARKER, k)
  {
    var s := header + MARKER + body;
    if k + |MARKER| <= |header| {
      assert header[k..k + |MARKER|] == s[k..k + |MARKER|];
    } else {
      MarkerText(s, k);
      assert s[|header|] == '*' && s[|header| + 1] == '*';
      OccursAt(s, MARKER, k, |header| - k);
    }
  }

  lemma MarkerParts(header: string, body: string)
    ensures header + MARKER + body == header + "**@" + (TAG + "@" + body)
    ensures header + MARKER + body == (header + "**@") + TAG + ("@" + body)
  {
    assert MARKER == "**@" + TAG + "@";
    Reassociate(header, "**@", TAG, "@", body);
  }

  lemma Reassociate(a: string, b: string, c: string, d: string, e: string)
    ensures a + (b + c + d) + e == a + b + (c + d + e)
    ensures a + (b + c + d) + e == (a + b) + c + (d + e)
  {
  }

  lemma MarkerFound(header: string, body: string)
    requires forall k :: !Occurs(header, MARKER, k)
    ensures var s := header + MARKER + body;
      Find(s, "**@", 0).Some? && Find(s, TAG, 0).Some? && Find(s, MARKER, 0) == Some(|header|)
  {
    var s := header + MARKER + body;
    OccursBetween(header, MARKER, body);
    MarkerParts(header, body);
    OccursBetween(header, "**@", TAG + "@" + body);
    OccursBetween(header + "**@", TAG, "@" + body);
    forall k: nat | k < |header| ensures !Occurs(s, MARKER, k) {
      if Occurs(s, MARKER, k) { NoOverlap(header, body, k); }
    }
  }

  // --- the theorem --------------------------------------------------------------------------------------------

  /** The fields with the line's ending stuck to the last value. */
  function Ended(fields: seq<(string, string)>, end: string): seq<(string, string)>
    requires fields != []
  {
    fields[..|fields| - 1] + [(fields[|fields| - 1].0, fields[|fields| - 1].1 + end)]
  }

  predicate OneLine(s: string) { '\n' !in s && '\r' !in s }

  ghost predicate PlainFields(fields: seq<(string, string)>) {
    forall i :: 0 <= i < |fields| ==> Plain(fields[i].0) && Plain(fields[i].1)
  }

  /** A header and fields that stay on one line of the file, and nothing in them is a separator. */
  ghost predicate Writable(header: string, fields: seq<(string, string)>) {
    && OneLine(header) && (forall k :: !Occurs(header, MARKER, k)) && fields != [] && PlainFields(fields)
    && forall i :: 0 <= i < |fields| ==> OneLine(fields[i].0) && OneLine(fields[i].1)
  }

  ghost predicate Ambiguous(tokens: seq<string>) { exists i: nat :: Respells(tokens, i) }

  /** Fields of one name read to one value. */
  ghost predicate OneValue(fields: seq<(string, string)>) {
    forall i, j :: 0 <= i < j < |fields| && fields[i].0 == fields[j].0 ==> Read(fields[i].1) == Read(fields[j].1)
  }

  /** Every field is in the row, with its value. */
  ghost predicate Found(row: map<string, Value>, fields: seq<(string, string)>) {
    forall i :: 0 <= i < |fields| ==> fields[i].0 in row && row[fields[i].0] == Read(fields[i].1)
  }

  function Names(fields: seq<(string, string)>): seq<string> {
    seq(|fields|, i requires 0 <= i < |fields| => fields[i].0)
  }

  /** The columns are the names in order, and the row holds the fields and nothing else. */
  ghost predicate Recovers(r: Parsed, fields: seq<(string, string)>) {
    && r.Row? && r.columns == Names(fields) && Found(r.row, fields)
    && forall name :: name in r.row ==> name in Names(fields)
  }

  lemma {:induction false} TokenCount(fields: seq<(string, string)>)
    ensures |Tokens(fields)| == 2 * |fields|
  {
    if fields != [] { TokenCount(fields[1..]); }
  }

  lemma {:induction false} TokenAt(fields: seq<(string, string)>, i: nat)
    requires i < 2 * |fields|
    ensures |Tokens(fields)| == 2 * |fields|
    ensures Tokens(fields)[i] == if i % 2 == 0 then fields[i / 2].0 else fields[i / 2].1
  {
    TokenCount(fields);
    if i >= 2 {
      TokenAt(fields[1..], i - 2);
      assert (i - 2) / 2 == i / 2 - 1 && (i - 2) % 2 == i % 2;
      assert Tokens(fields)[i] == Tokens(fields[1..])[i - 2] && fields[1..][i / 2 - 1] == fields[i / 2];
    }
  }

  /** The tokens of all fields but the last, then the last field's two. */
  lemma {:induction false} TokensBut(fields: seq<(string, string)>)
    requires fields != []
    ensures Tokens(fields) == Tokens(fields[..|fields| - 1]) + [fields[|fields| - 1].0, fields[|fields| - 1].1]
  {
    if |fields| > 1 {
      TokensBut(fields[1..]);
      assert fields[1..][..|fields| - 2] == fields[..|fields| - 1][1..];
    }
  }

  lemma {:induction false} ColumnsOfTokens(fields: seq<(string, string)>)
    ensures |Tokens(fields)| % 2 == 0 && Columns(Tokens(fields)) == Names(fields)
    ensures forall name :: name in Dict(Tokens(fields)) ==> name in Names(fields)
  {
    if fields != [] {
      var front, last := fields[..|fields| - 1], fields[|fields| - 1];
      TokensBut(fields);
      ColumnsOfTokens(front);
      assert Tokens(fields)[..|Tokens(fields)| - 2] == Tokens(front);
      assert Names(fields) == Names(front) + [last.0];
    }
  }

  lemma {:induction false} DictBut(fields: seq<(string, string)>)
    requires fields != []
    ensures var front, last := fields[..|fields| - 1], fields[|fields| - 1];
      && |Tokens(front)| % 2 == 0 && |Tokens(fields)| % 2 == 0
      && Dict(Tokens(fields)) == Dict(Tokens(front))[last.0 := Read(last.1)]
  {
    var front := fields[..|fields| - 1];
    TokenCount(front);
    TokensBut(fields);
    assert Tokens(fields)[..|Tokens(fields)| - 2] == Tokens(front);
  }

  lemma FoundAfter(row: map<string, Value>, fields: seq<(string, string)>)
    requires fields != [] && OneValue(fields) && Found(row, fields[..|fields| - 1])
    ensures Found(row[fields[|fields| - 1].0 := Read(fields[|fields| - 1].1)], fields)
  {
    var front, last := fields[..|fields| - 1], fields[|fields| - 1];
    forall i | 0 <= i < |front|
      ensures fields[i].0 in row && (fields[i].0 == last.0 || row[fields[i].0] == Read(fields[i].1))
    {
      assert front[i] == fields[i];
    }
  }

  lemma {:induction false} OneValueHolds(fields: seq<(string, string)>)
    requires OneValue(fields)
    ensures |Tokens(fields)| % 2 == 0 && Found(Dict(Tokens(fields)), fields)
  {
    TokenCount(fields);
    if fields != [] {
      var front := fields[..|fields| - 1];
      assert OneValue(front) by { assert forall i :: 0 <= i < |front| ==> front[i] == fields[i]; }
      OneValueHolds(front);
      DictBut(fields);
      FoundAfter(Dict(Tokens(front)), fields);
    }
  }

  /** The dictionary holds every field if and only if a repeated name repeats its value. */
  lemma {:induction false} DictHolds(fields: seq<(string, string)>)
    ensures |Tokens(fields)| % 2 == 0 && (Found(Dict(Tokens(fields)), fields) <==> OneValue(fields))
  {
    TokenCount(fields);
    if OneValue(fields) { OneValueHolds(fields); }
  }

  lemma PlainTokens(fields: seq<(string, string)>)
    requires PlainFields(fields)
    ensures AllPlain(Tokens(fields))
  {
    TokenCount(fields);
    forall i | 0 <= i < |Tokens(fields)| ensures Plain(Tokens(fields)[i]) { TokenAt(fields, i); }
  }

  lemma {:induction false} JoinEnded(fields: seq<(string, string)>, end: string)
    requires fields != []
    ensures Ended(fields, end) != [] && Join(Tokens(Ended(fields, end))) == Join(Tokens(fields)) + end
  {
    var (name, value) := fields[0];
    if |fields| == 1 {
      assert Ended(fields, end) == [(name, value + end)];
      assert Tokens(fields) == [name, value] && Tokens(Ended(fields, end)) == [name, value + end];
    } else {
      JoinEnded(fields[1..], end);
      assert Ended(fields, end)[1..] == Ended(fields[1..], end) && Ended(fields, end)[0] == fields[0];
      JoinTwo(name, value, Tokens(fields[1..]));
      JoinTwo(name, value, Tokens(Ended(fields[1..], end)));
    }
  }

  lemma JoinTwo(name: string, value: string, rest: seq<string>)
    requires rest != []
    ensures Join([name, value] + rest) == name + "@" + value + "@" + Join(rest)
  {
    assert ([name, value] + rest)[1..] == [value] + rest && ([value] + rest)[1..] == rest;
  }

  lemma AmbiguousEnded(fields: seq<(string, string)>, end: string)
    requires fields != []
    ensures Ambiguous(Tokens(Ended(fields, end))) <==> Ambiguous(Tokens(fields))
  {
    var a, b := Tokens(fields), Tokens(Ended(fields, end));
    TokenCount(fields);
    TokenCount(Ended(fields, end));
    forall i | 0 <= i < |a| - 1 ensures a[i] == b[i] {
      TokenAt(fields, i);
      TokenAt(Ended(fields, end), i);
    }
    forall i: nat ensures Respells(a, i) <==> Respells(b, i) { }
  }

  /** A last character that is not a space survives the stripping. */
  lemma {:induction false} StripKeepsLast(s: string)
    requires s != "" && !Space(s[|s| - 1])
    ensures Strip(s) != "" && Strip(s)[|Strip(s)| - 1] == s[|s| - 1]
    decreases |s|
  {
    if Space(s[0]) { StripKeepsLast(s[1..]); }
  }

  lemma StarredIsText(s: string)
    requires EndsStarred(s)
    ensures Read(s) != Read(s[..|s| - 2])
  {
    assert s[|s| - 2..][1] == '*';
    StripKeepsLast(s);
    var t := Strip(s);
    assert t[|t| - 1] == '*' && (|t| > 1 ==> t[1..][|t| - 2] == '*');
  }

  lemma PayloadWhole(header: string, tokens: seq<string>)
    requires (forall k :: !Occurs(header, MARKER, k)) && tokens != [] && AllPlain(tokens) && !Ambiguous(tokens)
    ensures Payload(header + MARKER + Join(tokens)) == Some(Join(tokens))
  {
    var body := Join(tokens);
    MarkerFound(header, body);
    assert (header + MARKER + body)[|header| + |MARKER|..] == body;
    forall k: nat ensures !Occurs(body, MARKER, k) {
      if Occurs(body, MARKER, k) { var i := OccurrenceRespells(tokens, k); }
    }
  }

  lemma PayloadCut(header: string, tokens: seq<string>) returns (i: nat)
    requires (forall k :: !Occurs(header, MARKER, k)) && tokens != [] && AllPlain(tokens) && Ambiguous(tokens)
    ensures Respells(tokens, i) && Payload(header + MARKER + Join(tokens)) == Some(Join(Clipped(tokens, i)))
  {
    var body := Join(tokens);
    MarkerFound(header, body);
    assert (header + MARKER + body)[|header| + |MARKER|..] == body;
    var j: nat :| Respells(tokens, j);
    var k := RespellsOccurs(tokens, j);
    i := OccurrenceRespells(tokens, Find(body, MARKER, 0).value);
  }

  lemma ParseWhole(header: string, tokens: seq<string>)
    requires (forall k :: !Occurs(header, MARKER, k)) && tokens != [] && AllPlain(tokens) && |tokens| % 2 == 0
    requires !Ambiguous(tokens)
    ensures Parse(header + MARKER + Join(tokens)) == Row(Columns(tokens), Dict(tokens))
  {
    MarkerFound(header, Join(tokens));
    PayloadWhole(header, tokens);
    SplitJoin(tokens);
  }

  /** The line fails, or some field is not in its row. */
  ghost predicate Loses(r: Parsed, fields: seq<(string, string)>) { r.Row? ==> !Found(r.row, fields) }

  lemma LastWritten(front: seq<string>, name: string, value: string)
    requires |front| % 2 == 0
    ensures var r := Pair(front + [name, value]); r.Row? && name in r.row && r.row[name] == Read(value)
  {
    assert (front + [name, value])[..|front|] == front;
  }

  /** The field a cut inside a value damages. */
  lemma {:induction false} CutField(fields: seq<(string, string)>, i: nat)
    requires Respells(Tokens(fields), i) && i % 2 == 1
    ensures 0 <= i / 2 < |fields| && Tokens(fields)[i] == fields[i / 2].1
    ensures var value := fields[i / 2].1;
      |value| >= 2 && Clipped(Tokens(fields), i) == Tokens(fields)[..i - 1] + [fields[i / 2].0, value[..|value| - 2]]
  {
    TokenCount(fields);
    TokenAt(fields, i - 1);
    TokenAt(fields, i);
    assert (i - 1) / 2 == i / 2;
  }

  lemma Damaged(front: seq<string>, fields: seq<(string, string)>, j: nat)
    requires |front| % 2 == 0 && j < |fields| && EndsStarred(fields[j].1)
    ensures Loses(Pair(front + [fields[j].0, fields[j].1[..|fields[j].1| - 2]]), fields)
  {
    var (name, value) := fields[j];
    StarredIsText(value);
    LastWritten(front, name, value[..|value| - 2]);
  }

  lemma OddFails(parts: seq<string>, fields: seq<(string, string)>)
    requires |parts| % 2 == 1
    ensures Loses(Pair(parts), fields)
  {
  }

  /** What is left of a line cut at a respelled marker has not every field. */
  lemma {:induction false} CutLoses(fields: seq<(string, string)>, i: nat, parts: seq<string>)
    requires Respells(Tokens(fields), i) && parts == Clipped(Tokens(fields), i)
    ensures Loses(Pair(parts), fields)
  {
    if i % 2 == 1 {
      CutField(fields, i);
      Damaged(Tokens(fields)[..i - 1], fields, i / 2);
    } else {
      OddFails(parts, fields);
    }
  }

  lemma SplitClipped(tokens: seq<string>, i: nat)
    requires AllPlain(tokens) && Respells(tokens, i)
    ensures Split(Join(Clipped(tokens, i))) == Clipped(tokens, i)
  {
    SplitJoin(Clipped(tokens, i));
  }

  lemma ParseClipped(header: string, tokens: seq<string>) returns (i: nat)
    requires (forall k :: !Occurs(header, MARKER, k)) && tokens != [] && AllPlain(tokens) && Ambiguous(tokens)
    ensures Respells(tokens, i)
    ensures Parse(header + MARKER + Join(tokens)) == Pair(Clipped(tokens, i))
  {
    MarkerFound(header, Join(tokens));
    i := PayloadCut(header, tokens);
    SplitClipped(tokens, i);
  }

  /** A line that spells the marker again loses the end of the value before it. */
  lemma ParseCut(header: string, fields: seq<(string, string)>)
    requires (forall k :: !Occurs(header, MARKER, k)) && Tokens(fields) != []
    requires PlainFields(fields) && Ambiguous(Tokens(fields))
    ensures Loses(Parse(header + MARKER + Join(Tokens(fields))), fields)
  {
    PlainTokens(fields);
    var i := ParseClipped(header, Tokens(fields));
    CutLoses(fields, i, Clipped(Tokens(fields), i));
  }

  lemma EndedLine(header: string, fields: seq<(string, string)>, end: string)
    requires Writable(header, fields) && (end == "" || end == "\n")
    ensures var ended := Ended(fields, end);
      && PlainFields(ended) && Tokens(ended) != [] && Line(header, fields) + end == header + MARKER + Join(Tokens(ended))
      && (Ambiguous(Tokens(ended)) <==> Ambiguous(Tokens(fields)))
  {
    JoinEnded(fields, end);
    TokenCount(Ended(fields, end));
    AmbiguousEnded(fields, end);
  }

  /**
   * Reading a written line, with or without its newline, gives back the columns and every field, if and only if
   * no two consecutive tokens spell the marker again and fields of one name read to one value.
   */
  lemma RoundTrip(header: string, fields: seq<(string, string)>, end: string)
    requires Writable(header, fields) && (end == "" || end == "\n")
    ensures Recovers(Parse(Line(header, fields) + end), Ended(fields, end)) <==>
      !Ambiguous(Tokens(fields)) && OneValue(Ended(fields, end))
    ensures var r := Parse(Line(header, fields) + end);
      r.Row? && Found(r.row, Ended(fields, end)) <==> Recovers(r, Ended(fields, end))
  {
    var ended := Ended(fields, end);
    EndedLine(header, fields, end);
    if Ambiguous(Tokens(ended)) {
      ParseCut(header, ended);
    } else {
      PlainTokens(ended);
      ColumnsOfTokens(ended);
      DictHolds(ended);
      ParseWhole(header, Tokens(ended));
    }
  }

  ghost predicate SafeNames(fields: seq<(string, string)>) {
    forall i :: 0 <= i < |fields| ==> fields[i].0 != TAG && !EndsStarred(fields[i].0)
  }

  lemma NotRespelled(fields: seq<(string, string)>, i: nat)
    requires SafeNames(fields)
    ensures !Respells(Tokens(fields), i)
  {
    TokenCount(fields);
    if i + 2 < |Tokens(fields)| {
      var name := if i % 2 == 0 then i else i + 1;
      TokenAt(fields, name);
      assert name % 2 == 0 && Tokens(fields)[name] == fields[name / 2].0;
    }
  }

  ghost predicate Distinct(names: seq<string>) {
    forall i, j :: 0 <= i < j < |names| ==> names[i] != names[j]
  }

  /** Distinct names that neither are the tag nor end in two stars are enough, whatever the values. */
  lemma NamesDecide(header: string, fields: seq<(string, string)>, end: string)
    requires Writable(header, fields) && (end == "" || end == "\n")
    requires SafeNames(fields) && Distinct(Names(fields))
    ensures Recovers(Parse(Line(header, fields) + end), Ended(fields, end))
  {
    forall i: nat ensures !Respells(Tokens(fields), i) { NotRespelled(fields, i); }
    forall i, j | 0 <= i < j < |fields| ensures Ended(fields, end)[i].0 != Ended(fields, end)[j].0 {
      assert Names(fields)[i] != Names(fields)[j];
    }
    RoundTrip(header, fields, end);
  }

  /** A value ending in two stars before a field named after the tag: the line does not parse back. */
  lemma AmbiguousLine(header: string, name: string, value: string, next: string, end: string)
    requires var fields := [(name, value), (TAG, next)]; Writable(header, fields) && EndsStarred(value)
    requires end == "" || end == "\n"
    ensures var fields := [(name, value), (TAG, next)];
      !Recovers(Parse(Line(header, fields) + end), Ended(fields, end))
  {
    var fields := [(name, value), (TAG, next)];
    TokenCount(fields);
    TokenAt(fields, 1);
    TokenAt(fields, 2);
    assert Respells(Tokens(fields), 1);
    RoundTrip(header, fields, end);
  }

  /** A repeated name: the first of two different values is lost, and the line does not parse back. */
  lemma RepeatedName(header: string, name: string, first: string, second: string)
    requires var fields := [(name, first), (name, second)]; Writable(header, fields)
    requires Read(first) != Read(second)
    ensures var fields := [(name, first), (name, second)]; !Recovers(Parse(Line(header, fields)), fields)
  {
    var fields := [(name, first), (name, second)];
    assert Line(header, fields) + "" == Line(header, fields) && second + "" == second;
    assert Ended(fields, "") == fields;
    assert fields[0].0 == fields[1].0 && Read(fields[0].1) != Read(fields[1].1);
    RoundTrip(header, fields, "");
  }

  // --- integers --------------------------------------------------------------------------------------------------

  lemma {:induction false} NaturalDecimal(n: nat)
    ensures Decimal(n) != "" && Natural(Decimal(n)) == Some(n)
    ensures IsDigit(Decimal(n)[0]) && IsDigit(Decimal(n)[|Decimal(n)| - 1])
  {
    if n >= 10 {
      NaturalDecimal(n / 10);
      assert Decimal(n)[..|Decimal(n)| - 1] == Decimal(n / 10);
    }
  }

  lemma StripEnded(s: string, end: string)
    requires s != "" && !Space(s[0]) && !Space(s[|s| - 1]) && (end == "" || end == "\n")
    ensures Strip(s + end) == s
  {
    if end == "\n" { assert (s + end)[..|s|] == s; } else { assert s + end == s; }
  }

  ghost predicate Numeral(s: string) { s != "" && IsDigit(s[0]) && IsDigit(s[|s| - 1]) }

  lemma PlainInteger(digits: string, n: nat)
    requires Numeral(digits) && Natural(digits) == Some(n)
    ensures Integer(digits) == Some(n)
  {
    StripEnded(digits, "");
    assert digits + "" == digits;
  }

  lemma SignedInteger(digits: string, n: nat)
    requires Numeral(digits) && Natural(digits) == Some(n)
    ensures Integer("-" + digits) == Some(-(n as int))
  {
    var s := "-" + digits;
    StripEnded(s, "");
    assert s + "" == s && s[1..] == digits;
  }

  lemma ReadInteger(s: string, end: string, n: int)
    requires s != "" && !Space(s[0]) && s[0] != '{' && IsDigit(s[|s| - 1]) && (end == "" || end == "\n")
    requires Integer(s) == Some(n)
    ensures Read(s + end) == Int(n)
  {
    StripEnded(s, end);
    StripEnded(s, "");
    assert s + "" == s;
  }

  lemma ReadPlain(digits: string, n: nat, end: string)
    requires Numeral(digits) && Natural(digits) == Some(n) && (end == "" || end == "\n")
    ensures Read(digits + end) == Int(n)
  {
    PlainInteger(digits, n);
    ReadInteger(digits, end, n);
  }

  lemma ReadSigned(digits: string, n: nat, end: string)
    requires Numeral(digits) && Natural(digits) == Some(n) && (end == "" || end == "\n")
    ensures Read("-" + digits + end) == Int(-(n as int))
  {
    SignedInteger(digits, n);
    ReadInteger("-" + digits, end, -(n as int));
  }

  lemma DecimalDigits(n: nat) returns (digits: string)
    ensures digits == Decimal(n) && (n > 0 ==> Decimal(-(n as int)) == "-" + digits)
    ensures Numeral(digits) && Natural(digits) == Some(n)
  {
    NaturalDecimal(n);
    digits := Decimal(n);
  }

  /** An integer comes back as itself, with or without the line's newline after it. */
  lemma IntegersReturn(n: int, end: string)
    requires end == "" || end == "\n"
    ensures Read(Decimal(n) + end) == Int(n)
  {
    var digits := DecimalDigits(if n < 0 then -n else n);
    if n < 0 { ReadSigned(digits, -n, end); } else { ReadPlain(digits, n, end); }
  }

  // --- reading a value, exactly ------------------------------------------------------------------------------------

  ghost predicate Blank(s: string) { forall i :: 0 <= i < |s| ==> s[i] in " \t\n\r" || s[i] as int in {11, 12, 28, 29, 30, 31} }

  /** Digits with single underscores between them. */
  predicate Grouped(s: string) {
    && s != "" && IsDigit(s[0]) && IsDigit(s[|s| - 1])
    && (forall i :: 0 <= i < |s| ==> IsDigit(s[i]) || s[i] == '_')
    && (forall i :: 0 < i < |s| ==> s[i - 1] != '_' || s[i] != '_')
  }

  /** Read from the left, ten times what came before and the digit. */
  function Horner(s: string, n: nat): nat
    requires forall i :: 0 <= i < |s| ==> IsDigit(s[i]) || s[i] == '_'
  {
    if s == "" then n
    else if s[0] == '_' then Horner(s[1..], n)
    else assert IsDigit(s[0]); Horner(s[1..], 10 * n + (s[0] - '0') as nat)
  }

  lemma {:induction false} HornerAppend(s: string, c: char, n: nat)
    requires (forall i :: 0 <= i < |s| ==> IsDigit(s[i]) || s[i] == '_') && (IsDigit(c) || c == '_')
    ensures Horner(s + [c], n) == if c == '_' then Horner(s, n) else 10 * Horner(s, n) + (c - '0') as nat
  {
    if s == "" {
      assert s + [c] == [c] && [c][1..] == "";
    } else {
      assert (s + [c])[1..] == s[1..] + [c];
      HornerAppend(s[1..], c, if s[0] == '_' then n else 10 * n + (s[0] - '0') as nat);
    }
  }

  /** `s` is `kept`, perhaps an underscore, and a digit. */
  predicate Extends(s: string, kept: string) {
    && kept != "" && |kept| < |s| && s[..|kept|] == kept && IsDigit(s[|s| - 1])
    && (|s| == |kept| + 1 || (|s| == |kept| + 2 && s[|kept|] == '_'))
  }

  lemma GroupedIff(s: string, kept: string)
    requires Extends(s, kept) && (|s| == |kept| + 1 ==> kept[|kept| - 1] != '_')
    ensures Grouped(s) <==> Grouped(kept)
  {
    if Grouped(kept) { GroupedLonger(kept, s); }
    if Grouped(s) { GroupedShorter(s, |s| - |kept|); }
  }

  lemma HornerExtends(s: string, kept: string)
    requires Extends(s, kept) && Grouped(kept) && Grouped(s)
    ensures Horner(s, 0) == 10 * Horner(kept, 0) + (s[|s| - 1] - '0') as nat
  {
    var front, last := s[..|s| - 1], s[|s| - 1];
    assert s == front + [last];
    HornerAppend(front, last, 0);
    if |s| == |kept| + 1 {
      assert front == kept;
    } else {
      assert front == kept + ['_'];
      HornerAppend(kept, '_', 0);
    }
  }

  lemma NaturalOne(s: string)
    requires |s| == 1 && IsDigit(s[0])
    ensures Grouped(s) && Natural(s) == Some(Horner(s, 0))
  {
    assert s == [s[0]] && s[1..] == "";
  }

  lemma {:induction false} NaturalExact(s: string)
    ensures Natural(s).Some? <==> Grouped(s)
    ensures Grouped(s) ==> Natural(s) == Some(Horner(s, 0))
  {
    if s != "" && IsDigit(s[|s| - 1]) {
      var front := s[..|s| - 1];
      if front == "" {
        NaturalOne(s);
      } else {
        var kept := if front[|front| - 1] == '_' then front[..|front| - 1] else front;
        NaturalExact(kept);
        if kept != "" {
          GroupedIff(s, kept);
          if Grouped(kept) { HornerExtends(s, kept); }
        }
      }
    }
  }

  lemma GroupedShorter(s: string, n: nat)
    requires Grouped(s) && n < |s| && (n == 1 || (n == 2 && s[|s| - 2] == '_')) && s[|s| - n - 1] != '_'
    ensures Grouped(s[..|s| - n])
  {
  }

  lemma GroupedLonger(kept: string, s: string)
    requires Grouped(kept) && |kept| < |s| && s[..|kept|] == kept && IsDigit(s[|s| - 1])
    requires |s| == |kept| + 1 || (|s| == |kept| + 2 && s[|kept|] == '_')
    ensures Grouped(s)
  {
    assert forall i :: 0 <= i < |kept| ==> s[i] == kept[i];
  }

  lemma BlankAt(s: string, i: nat)
    requires i < |s|
    ensures Blank(s) ==> Space(s[i])
  {
  }

  lemma SpaceIsBlank(c: char)
    ensures Blank([c]) <==> Space(c)
  {
    assert [c][0] == c;
    assert c in " \t\n\r" <==> c == ' ' || c == '\t' || c == '\n' || c == '\r';
  }

  lemma {:induction false} BlankAround(pre: string, t: string, post: string)
    requires Blank(pre) && Blank(post) && t != "" && !Space(t[0]) && !Space(t[|t| - 1])
    ensures Strip(pre + t + post) == t
    decreases |pre| + |post|
  {
    var s := pre + t + post;
    if pre != "" {
      BlankAt(pre, 0);
      assert s[1..] == pre[1..] + t + post;
      BlankAround(pre[1..], t, post);
    } else if post != "" {
      BlankAt(post, |post| - 1);
      assert s[0] == t[0] && s[..|s| - 1] == pre + t + post[..|post| - 1];
      BlankAround(pre, t, post[..|post| - 1]);
    } else {
      assert s == t;
    }
  }

  lemma BlankConcat(a: string, b: string)
    requires Blank(a) && Blank(b)
    ensures Blank(a + b)
  {
  }

  lemma StripHead(s: string, pre: string, mid: string, post: string)
    requires s != "" && Space(s[0]) && s[1..] == pre + mid + post && Blank(pre)
    ensures s == [s[0]] + pre + mid + post && Blank([s[0]] + pre)
  {
    SpaceIsBlank(s[0]);
    BlankConcat([s[0]], pre);
    assert s == [s[0]] + s[1..];
  }

  lemma StripLast(s: string, pre: string, mid: string, post: string)
    requires s != "" && Space(s[|s| - 1]) && s[..|s| - 1] == pre + mid + post && Blank(post)
    ensures s == pre + mid + (post + [s[|s| - 1]]) && Blank(post + [s[|s| - 1]])
  {
    SpaceIsBlank(s[|s| - 1]);
    BlankConcat(post, [s[|s| - 1]]);
    assert s == s[..|s| - 1] + [s[|s| - 1]];
  }

  /** What stripping takes away is blank. */
  lemma {:induction false} StripExact(s: string) returns (pre: string, post: string)
    ensures s == pre + Strip(s) + post && Blank(pre) && Blank(post)
    decreases |s|
  {
    if s != "" && Space(s[0]) {
      pre, post := StripExact(s[1..]);
      StripHead(s, pre, Strip(s[1..]), post);
      pre := [s[0]] + pre;
    } else if s != "" && Space(s[|s| - 1]) {
      pre, post := StripExact(s[..|s| - 1]);
      StripLast(s, pre, Strip(s[..|s| - 1]), post);
      post := post + [s[|s| - 1]];
    } else {
      pre, post := "", "";
    }
  }

  /** A whole number as Python reads it: blanks, a sign, digits in groups, blanks. */
  ghost predicate Spells(s: string, n: int) {
    exists pre, sign, digits, post :: SpelledBy(s, n, pre, sign, digits, post)
  }

  ghost predicate SpelledBy(s: string, n: int, pre: string, sign: string, digits: string, post: string) {
    && s == pre + (sign + digits) + post && Blank(pre) && Blank(post) && Sign(sign) && Grouped(digits)
    && n == if sign == "-" then -(Horner(digits, 0) as int) else Horner(digits, 0)
  }

  lemma NotSpace(c: char)
    requires IsDigit(c) || c == '-' || c == '+'
    ensures !Space(c)
  {
  }

  /** A sign, or none. */
  predicate Sign(s: string) { s == "" || s == "+" || s == "-" }

  lemma SignedReads(sign: string, digits: string)
    requires Sign(sign) && Grouped(digits)
    ensures Signed(sign + digits) == Some(if sign == "-" then -(Horner(digits, 0) as int) else Horner(digits, 0))
  {
    NaturalExact(digits);
    if sign == "" {
      assert sign + digits == digits;
    } else {
      assert (sign + digits)[1..] == digits && (sign + digits)[0] == sign[0];
    }
  }

  lemma SignedEnds(sign: string, digits: string)
    requires Sign(sign) && Grouped(digits)
    ensures var t := sign + digits; t != "" && !Space(t[0]) && !Space(t[|t| - 1])
  {
    var t := sign + digits;
    assert t[|t| - 1] == digits[|digits| - 1];
    if sign == "" { assert t == digits; } else { assert t[0] == sign[0]; }
    NotSpace(t[0]);
    NotSpace(t[|t| - 1]);
  }

  lemma SpelledReads(s: string, n: int, pre: string, sign: string, digits: string, post: string)
    requires SpelledBy(s, n, pre, sign, digits, post)
    ensures Integer(s) == Some(n)
  {
    SignedEnds(sign, digits);
    BlankAround(pre, sign + digits, post);
    SignedReads(sign, digits);
  }

  lemma SignedSpelled(t: string) returns (sign: string, digits: string)
    requires Signed(t).Some?
    ensures t == sign + digits && Sign(sign) && Grouped(digits)
  {
    var signed := t != "" && (t[0] == '-' || t[0] == '+');
    digits := if signed then t[1..] else t;
    sign := if signed then [t[0]] else "";
    NaturalExact(digits);
    assert t == sign + digits;
  }

  lemma ReadsSpelled(s: string)
    ensures Integer(s).Some? ==> Spells(s, Integer(s).value)
  {
    if Integer(s).Some? {
      var pre, post := StripExact(s);
      var sign, digits := SignedSpelled(Strip(s));
      SignedReads(sign, digits);
      assert SpelledBy(s, Integer(s).value, pre, sign, digits, post);
    }
  }

  /** Every value: JSON exactly between braces, else the whole number it spells, else the text itself. */
  lemma ReadExact(s: string)
    ensures s != "" && s[0] == '{' && s[|s| - 1] == '}' ==> Read(s) == Json(s)
    ensures !(s != "" && s[0] == '{' && s[|s| - 1] == '}') ==>
      && (forall n :: Read(s) == Int(n) <==> Spells(s, n))
      && ((forall n :: !Spells(s, n)) ==> Read(s) == Text(s))
  {
    ReadsSpelled(s);
    forall n | Spells(s, n) ensures Integer(s) == Some(n) {
      var pre, sign, digits, post :| SpelledBy(s, n, pre, sign, digits, post);
      SpelledReads(s, n, pre, sign, digits, post);
    }
  }

  // --- the script's loop -------------------------------------------------------------------------------------------

  /** Two parts at a time, failing where the script would index past the end. */
  method PairUp(parts: seq<string>) returns (r: Parsed)
    ensures r == Pair(parts)
  {
    var columns: seq<string>, row: map<string, Value> := [], map[];
    var i := 0;
    while i < |parts|
      invariant 0 <= i <= |parts| && i % 2 == 0 && columns == Columns(parts[..i]) && row == Dict(parts[..i])
    {
      columns := columns + [parts[i]];
      if i + 1 == |parts| { return Fails; }
      assert parts[..i + 2][..i] == parts[..i];
      row := row[parts[i] := Read(parts[i + 1])];
      i := i + 2;
    }
    assert parts[..i] == parts;
    r := Row(columns, row);
  }

  /** One line of the file. */
  method ParseLine(line: string) returns (r: Parsed)
    ensures r == Parse(line)
  {
    if Find(line, TAG, 0).None? { return Fails; }
    var payload := Payload(line);
    if payload.None? { return Fails; }
    r := PairUp(Split(payload.value));
  }

  // --- the whole file ----------------------------------------------------------------------------------------------

  datatype Record = Record(header: string, fields: seq<(string, string)>)
  datatype Table = Table(columns: seq<string>, rows: seq<map<string, Value>>) | Broken

  /** The lines of a file, each with the newline that ends it. */
  function Lines(text: string): seq<string>
    decreases |text|
  {
    if text == "" then []
    else match Find(text, "\n", 0)
      case None => [text]
      case Some(i) => [text[..i + 1]] + Lines(text[i + 1..])
  }

  function ParseAll(lines: seq<string>): seq<Parsed> {
    seq(|lines|, k requires 0 <= k < |lines| => Parse(lines[k]))
  }

  function Add(t: Table, r: Parsed): Table {
    if t.Broken? || r.Fails? then Broken else Table(r.columns, t.rows + [r.row])
  }

  /** What the script collects: one row per line and the last line's columns; one bad line fails the file. */
  function Collect(parsed: seq<Parsed>): Table {
    if parsed == [] then Table([], []) else Add(Collect(parsed[..|parsed| - 1]), parsed[|parsed| - 1])
  }

  /** Without a line the script has no columns to build a frame from. */
  function ReadFile(text: string): Table {
    var lines := Lines(text);
    if lines == [] then Broken else Collect(ParseAll(lines))
  }

  lemma {:induction false} BrokenStays(parsed: seq<Parsed>, i: nat)
    requires i <= |parsed| && Collect(parsed[..i]) == Broken
    ensures Collect(parsed) == Broken
    decreases |parsed| - i
  {
    if i == |parsed| {
      assert parsed[..i] == parsed;
    } else {
      assert parsed[..i + 1][..i] == parsed[..i];
      BrokenStays(parsed, i + 1);
    }
  }

  method ParseFile(text: string) returns (t: Table)
    ensures t == ReadFile(text)
  {
    var lines := Lines(text);
    if lines == [] { return Broken; }
    t := CollectLines(lines);
  }

  lemma ParsedAt(lines: seq<string>, i: nat)
    requires i < |lines|
    ensures |ParseAll(lines)| == |lines| && ParseAll(lines)[i] == Parse(lines[i])
  {
  }

  lemma CollectStep(parsed: seq<Parsed>, i: nat)
    requires i < |parsed|
    ensures Collect(parsed[..i + 1]) == Add(Collect(parsed[..i]), parsed[i])
  {
    assert parsed[..i + 1][..i] == parsed[..i];
  }

  method CollectLines(lines: seq<string>) returns (t: Table)
    ensures t == Collect(ParseAll(lines))
  {
    var columns: seq<string>, rows: seq<map<string, Value>> := [], [];
    ghost var parsed := ParseAll(lines);
    for i := 0 to |lines|
      invariant Collect(parsed[..i]) == Table(columns, rows)
    {
      var r := ParseLine(lines[i]);
      ParsedAt(lines, i);
      CollectStep(parsed, i);
      if r.Fails? {
        BrokenStays(parsed, i + 1);
        return Broken;
      }
      columns, rows := r.columns, rows + [r.row];
    }
    assert parsed[..|lines|] == parsed;
    t := Table(columns, rows);
  }

  ghost predicate AllWritable(records: seq<Record>) {
    forall k :: 0 <= k < |records| ==> Writable(records[k].header, records[k].fields)
  }

  function Written(r: Record): string
    requires r.fields != []
  {
    Line(r.header, r.fields) + "\n"
  }

  ghost function Texts(records: seq<Record>): seq<string>
    requires AllWritable(records)
  {
    seq(|records|, k requires 0 <= k < |records| => Written(records[k]))
  }

  function Concat(texts: seq<string>): string { if texts == [] then "" else texts[0] + Concat(texts[1..]) }

  ghost function File(records: seq<Record>): string
    requires AllWritable(records)
  {
    Concat(Texts(records))
  }

  lemma NewlineAt(s: string, k: nat)
    ensures Occurs(s, "\n", k) <==> k < |s| && s[k] == '\n'
  {
    if k < |s| { assert s[k..k + 1] == [s[k]]; }
  }

  lemma FindNewline(first: string, rest: string)
    requires '\n' !in first
    ensures Find(first + "\n" + rest, "\n", 0) == Some(|first|)
  {
    var s := first + "\n" + rest;
    forall k | 0 <= k <= |first| ensures Occurs(s, "\n", k) <==> k == |first| { NewlineAt(s, k); }
    assert Occurs(s, "\n", |first|);
  }

  lemma {:induction false} JoinOneLine(tokens: seq<string>)
    requires tokens != [] && forall i :: 0 <= i < |tokens| ==> OneLine(tokens[i])
    ensures OneLine(Join(tokens))
  {
    if |tokens| > 1 { JoinOneLine(tokens[1..]); }
  }

  lemma Terminated(a: string, b: string, c: string)
    requires OneLine(a) && OneLine(b) && OneLine(c)
    ensures IsLine(a + b + c + "\n")
  {
    assert (a + b + c + "\n")[..|a + b + c|] == a + b + c;
  }

  lemma {:induction false} TokensOneLine(fields: seq<(string, string)>)
    requires fields != [] && forall i :: 0 <= i < |fields| ==> OneLine(fields[i].0) && OneLine(fields[i].1)
    ensures Tokens(fields) != [] && OneLine(Join(Tokens(fields)))
  {
    TokenCount(fields);
    forall i | 0 <= i < |Tokens(fields)| ensures OneLine(Tokens(fields)[i]) { TokenAt(fields, i); }
    JoinOneLine(Tokens(fields));
  }

  lemma LineIsOne(header: string, fields: seq<(string, string)>)
    requires Writable(header, fields)
    ensures IsLine(Line(header, fields) + "\n")
  {
    TokensOneLine(fields);
    assert OneLine(MARKER);
    Terminated(header, MARKER, Join(Tokens(fields)));
  }

  lemma FirstLine(first: string, rest: string)
    requires '\n' !in first
    ensures Lines(first + "\n" + rest) == [first + "\n"] + Lines(rest)
  {
    FindNewline(first, rest);
    assert (first + "\n" + rest)[..|first| + 1] == first + "\n" && (first + "\n" + rest)[|first| + 1..] == rest;
  }

  ghost predicate IsLine(s: string) { s != "" && s[|s| - 1] == '\n' && '\n' !in s[..|s| - 1] }

  lemma {:induction false} LinesOfTexts(texts: seq<string>)
    requires forall k :: 0 <= k < |texts| ==> IsLine(texts[k])
    ensures Lines(Concat(texts)) == texts
  {
    if texts != [] {
      var first := texts[0][..|texts[0]| - 1];
      assert texts[0] == first + "\n";
      FirstLine(first, Concat(texts[1..]));
      LinesOfTexts(texts[1..]);
    }
  }

  /** Reading the file by lines undoes writing the records one after another. */
  lemma {:induction false} LinesOfFile(records: seq<Record>)
    requires AllWritable(records)
    ensures Lines(File(records)) == Texts(records)
  {
    forall k | 0 <= k < |records| ensures IsLine(Texts(records)[k]) {
      LineIsOne(records[k].header, records[k].fields);
    }
    LinesOfTexts(Texts(records));
  }

  /** The lines put together are the file, and each ends at the first newline or at the end of the file. */
  lemma {:induction false} LinesExact(text: string)
    ensures Concat(Lines(text)) == text
    ensures forall i :: 0 <= i < |Lines(text)| ==>
      IsLine(Lines(text)[i]) || (i == |Lines(text)| - 1 && Lines(text)[i] != "" && '\n' !in Lines(text)[i])
    decreases |text|
  {
    if text != "" {
      var found := Find(text, "\n", 0);
      if found.None? {
        forall k | 0 <= k < |text| ensures text[k] != '\n' { NewlineAt(text, k); }
        assert Lines(text)[1..] == [];
      } else {
        var i := found.value;
        NewlineAt(text, i);
        forall k | 0 <= k < i ensures text[k] != '\n' { NewlineAt(text, k); }
        LinesExact(text[i + 1..]);
        assert text == text[..i + 1] + text[i + 1..];
        assert text[..i + 1][..i] == text[..i];
        assert Lines(text)[1..] == Lines(text[i + 1..]);
      }
    }
  }

  lemma {:induction false} CollectFails(parsed: seq<Parsed>)
    ensures Collect(parsed).Broken? <==> Fails in parsed
  {
    if parsed != [] {
      CollectFails(parsed[..|parsed| - 1]);
      assert parsed == parsed[..|parsed| - 1] + [parsed[|parsed| - 1]];
    }
  }

  /** A file fails exactly if it is empty or one of its lines does. */
  lemma FileFails(text: string)
    ensures ReadFile(text).Broken? <==> text == "" || exists i :: 0 <= i < |Lines(text)| && Parse(Lines(text)[i]).Fails?
  {
    var parsed := ParseAll(Lines(text));
    CollectFails(parsed);
    assert Lines(text) == [] <==> text == "";
    assert forall i :: 0 <= i < |parsed| ==> parsed[i] == Parse(Lines(text)[i]);
    if Fails in parsed {
      var i :| 0 <= i < |parsed| && parsed[i] == Fails;
      assert Parse(Lines(text)[i]).Fails?;
    }
  }

  /** A record whose line parses back. */
  ghost predicate Returns(r: Record)
    requires Writable(r.header, r.fields)
  {
    !Ambiguous(Tokens(r.fields)) && OneValue(Ended(r.fields, "\n"))
  }

  ghost predicate Kept(r: Parsed, fields: seq<(string, string)>) { r.Row? && Found(r.row, fields) }

  ghost predicate Whole(t: Table, expected: seq<seq<(string, string)>>) {
    t.Table? && |t.rows| == |expected| && forall k :: 0 <= k < |expected| ==> Found(t.rows[k], expected[k])
  }

  ghost predicate AllKept(parsed: seq<Parsed>, expected: seq<seq<(string, string)>>)
    requires |parsed| == |expected|
  {
    forall k :: 0 <= k < |parsed| ==> Kept(parsed[k], expected[k])
  }

  lemma WholeAdd(t: Table, r: Parsed, expected: seq<seq<(string, string)>>)
    requires expected != []
    ensures var n := |expected| - 1; Whole(Add(t, r), expected) <==> Whole(t, expected[..n]) && Kept(r, expected[n])
  {
    if Whole(Add(t, r), expected) {
      assert forall k :: 0 <= k < |t.rows| ==> Add(t, r).rows[k] == t.rows[k];
    }
  }

  lemma {:induction false} CollectExact(parsed: seq<Parsed>, expected: seq<seq<(string, string)>>)
    requires |parsed| == |expected|
    ensures Whole(Collect(parsed), expected) <==> AllKept(parsed, expected)
  {
    if parsed != [] {
      var n := |parsed| - 1;
      CollectExact(parsed[..n], expected[..n]);
      assert forall k :: 0 <= k < n ==> parsed[..n][k] == parsed[k] && expected[..n][k] == expected[k];
      WholeAdd(Collect(parsed[..n]), parsed[n], expected);
    }
  }

  /** The fields as they are read back: the newline sticks to the last value. */
  ghost function Expected(records: seq<Record>): seq<seq<(string, string)>>
    requires AllWritable(records)
  {
    seq(|records|, k requires 0 <= k < |records| => Ended(records[k].fields, "\n"))
  }

  lemma RecordKept(r: Record)
    requires Writable(r.header, r.fields)
    ensures Kept(Parse(Written(r)), Ended(r.fields, "\n")) <==> Returns(r)
    ensures Returns(r) ==> Parse(Written(r)).columns == Names(r.fields)
  {
    RoundTrip(r.header, r.fields, "\n");
    assert Names(Ended(r.fields, "\n")) == Names(r.fields);
  }

  ghost predicate AllReturn(records: seq<Record>)
    requires AllWritable(records)
  {
    forall k :: 0 <= k < |records| ==> Returns(records[k])
  }

  lemma {:induction false} RecordsKept(records: seq<Record>)
    requires AllWritable(records)
    ensures AllKept(ParseAll(Texts(records)), Expected(records)) <==> AllReturn(records)
  {
    forall k | 0 <= k < |records|
      ensures Kept(ParseAll(Texts(records))[k], Expected(records)[k]) <==> Returns(records[k])
    {
      RecordKept(records[k]);
    }
  }

  lemma {:induction false} FileParts(records: seq<Record>)
    requires records != [] && AllWritable(records)
    ensures ReadFile(File(records)) == Collect(ParseAll(Texts(records)))
  {
    LinesOfFile(records);
  }

  /**
   * Writing records and reading the file back gives one row per record that holds every field, if and only if
   * every record's line parses back.
   */
  lemma {:induction false} FileRoundTrip(records: seq<Record>)
    requires records != [] && AllWritable(records)
    ensures Whole(ReadFile(File(records)), Expected(records)) <==> AllReturn(records)
  {
    FileParts(records);
    RecordsKept(records);
    CollectExact(ParseAll(Texts(records)), Expected(records));
  }

  /** The columns of a file that comes back are the last record's names. */
  lemma {:induction false} FileColumns(records: seq<Record>)
    requires records != [] && AllWritable(records) && AllReturn(records)
    ensures ReadFile(File(records)).Table? && ReadFile(File(records)).columns == Names(records[|records| - 1].fields)
  {
    var n := |records| - 1;
    FileRoundTrip(records);
    FileParts(records);
    ParsedAt(Texts(records), n);
    CollectStep(ParseAll(Texts(records)), n);
    assert ParseAll(Texts(records))[..n + 1] == ParseAll(Texts(records));
    RecordKept(records[n]);
  }

  // --- the lines the gateway writes ----------------------------------------------------------------------------------

  const REQUEST_NAMES: seq<string> := ["requestID", "request_start_time", "request_end_time", "selectedpod"]
  const LATENCY_NAMES: seq<string> := ["ttft", "avg_tpot", "total_decode_time", "e2e"]
  const TOKEN_NAMES: seq<string> := ["numInputTokens", "numOutputTokens", "numTotalTokens"]
  const LOAD_NAMES: seq<string> := ["allPodsKvCacheHitRatios", "numInflightRequestsAllPods"]
  const ENGINE_NAMES: seq<string> := [
    "vllmGPUKVCacheUsage", "vllmCPUKVCacheUsage", "vllmNumRequestsRunning", "vllmNumRequestsWaiting"]
  const POD_NAMES: seq<string> := ["podMetricsLastSecond", "numPrefillTokensForAllPods", "numDecodeTokensForAllPods"]
  const NAMES: seq<string> := REQUEST_NAMES + LATENCY_NAMES + TOKEN_NAMES + LOAD_NAMES + ENGINE_NAMES + POD_NAMES

  predicate SafeName(name: string) { Plain(name) && OneLine(name) && name != TAG && !EndsStarred(name) }

  /** A word of letters, digits and underscores whose first letter is not the tag's. */
  lemma SafeWord(name: string)
    requires name != "" && name[0] != 'l' && name[|name| - 1] != '*' && Plain(name) && OneLine(name)
    ensures SafeName(name)
  {
    if |name| >= 2 { assert name[|name| - 2..][1] == name[|name| - 1]; }
  }

  ghost predicate AllSafe(names: seq<string>) { forall i :: 0 <= i < |names| ==> SafeName(names[i]) }

  lemma SafeConcat(a: seq<string>, b: seq<string>)
    requires AllSafe(a) && AllSafe(b)
    ensures AllSafe(a + b)
  {
  }

  lemma RequestNamesSafe()
    ensures AllSafe(REQUEST_NAMES)
  {
    forall i | 0 <= i < |REQUEST_NAMES| ensures SafeName(REQUEST_NAMES[i]) { SafeWord(REQUEST_NAMES[i]); }
  }

  lemma LatencyNamesSafe()
    ensures AllSafe(LATENCY_NAMES)
  {
    forall i | 0 <= i < |LATENCY_NAMES| ensures SafeName(LATENCY_NAMES[i]) { SafeWord(LATENCY_NAMES[i]); }
  }

  lemma TokenNamesSafe()
    ensures AllSafe(TOKEN_NAMES)
  {
    forall i | 0 <= i < |TOKEN_NAMES| ensures SafeName(TOKEN_NAMES[i]) { SafeWord(TOKEN_NAMES[i]); }
  }

  lemma LoadNamesSafe()
    ensures AllSafe(LOAD_NAMES)
  {
    forall i | 0 <= i < |LOAD_NAMES| ensures SafeName(LOAD_NAMES[i]) { SafeWord(LOAD_NAMES[i]); }
  }

  lemma EngineNamesSafe()
    ensures AllSafe(ENGINE_NAMES)
  {
    forall i | 0 <= i < |ENGINE_NAMES| ensures SafeName(ENGINE_NAMES[i]) { SafeWord(ENGINE_NAMES[i]); }
  }

  lemma PodNamesSafe()
    ensures AllSafe(POD_NAMES)
  {
    forall i | 0 <= i < |POD_NAMES| ensures SafeName(POD_NAMES[i]) { SafeWord(POD_NAMES[i]); }
  }

  lemma NamesSafe()
    ensures AllSafe(NAMES)
  {
    RequestNamesSafe();
    LatencyNamesSafe();
    TokenNamesSafe();
    LoadNamesSafe();
    EngineNamesSafe();
    PodNamesSafe();
    SafeConcat(REQUEST_NAMES, LATENCY_NAMES);
    SafeConcat(REQUEST_NAMES + LATENCY_NAMES, TOKEN_NAMES);
    SafeConcat(REQUEST_NAMES + LATENCY_NAMES + TOKEN_NAMES, LOAD_NAMES);
    SafeConcat(REQUEST_NAMES + LATENCY_NAMES + TOKEN_NAMES + LOAD_NAMES, ENGINE_NAMES);
    SafeConcat(REQUEST_NAMES + LATENCY_NAMES + TOKEN_NAMES + LOAD_NAMES + ENGINE_NAMES, POD_NAMES);
  }

  function Fields(values: seq<string>): seq<(string, string)>
    requires |values| == |NAMES|
  {
    seq(|NAMES|, i requires 0 <= i < |NAMES| => (NAMES[i], values[i]))
  }

  lemma Lengths(i: nat)
    requires i < |NAMES|
    ensures |NAMES[i]| == [9, 18, 16, 11, 4, 8, 17, 3, 14, 15, 14, 23, 26, 19, 19, 22, 22, 20, 26, 25][i]
  {
  }

  /** The four pairs of names of one length. */
  lemma SameLength(i: nat, j: nat)
    requires i < j < |NAMES| && |NAMES[i]| == |NAMES[j]|
    ensures (i == 8 && j == 10) || (i == 12 && j == 18) || (i == 13 && j == 14) || (i == 15 && j == 16)
  {
    Lengths(i);
    Lengths(j);
  }

  lemma NamesDistinct()
    ensures Distinct(NAMES)
  {
    forall i, j | 0 <= i < j < |NAMES| ensures NAMES[i] != NAMES[j] {
      if |NAMES[i]| == |NAMES[j]| {
        SameLength(i, j);
        var k := if i == 13 then 4 else if i == 15 then 15 else 3;
        assert NAMES[i][k] != NAMES[j][k];
      }
    }
  }

  /** Every generated line parses back to its own fields. */
  lemma GeneratedLinesParse(values: seq<string>, end: string)
    requires |values| == |NAMES| && (forall i :: 0 <= i < |values| ==> Plain(values[i]) && OneLine(values[i]))
    requires end == "" || end == "\n"
    ensures Recovers(Parse(Line("", Fields(values)) + end), Ended(Fields(values), end))
  {
    NamesSafe();
    NamesDistinct();
    forall k: nat ensures !Occurs("", MARKER, k) { }
    assert Names(Fields(values)) == NAMES;
    NamesDecide("", Fields(values), end);
  }
}
