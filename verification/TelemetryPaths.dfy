/** The telemetry frame as a flat list of paths, and the reader that follows such a path back. */
module TelemetryPaths {
  import opened Wrappers

  /** Objects list their fields in enumeration order. */
  datatype Json =
    | Leaf(text: string)
    | Array(items: seq<Json>)
    | Object(fields: seq<(string, Json)>)

  datatype Entry = Entry(path: string, value: Json)

  // ---------------------------------------------------------------- children of a value

  function Size(value: Json): nat {
    match value
    case Leaf(_) => 0
    case Array(items) => |items|
    case Object(fields) => |fields|
  }

  function Child(value: Json, i: nat): (child: Json)
    requires i < Size(value)
    ensures child < value
  {
    match value
    case Array(items) => items[i]
    case Object(fields) => fields[i].1
  }

  datatype Part = Key(name: string) | Index(index: nat)

  function PartAt(value: Json, i: nat): Part
    requires i < Size(value)
  {
    match value
    case Array(_) => Index(i)
    case Object(fields) => Key(fields[i].0)
  }

  /** How a part is written after a path. */
  function Show(part: Part): string {
    match part
    case Key(name) => "." + name
    case Index(index) => "[" + Decimal(index) + "]"
  }

  function Text(part: Part): string {
    match part
    case Key(name) => name
    case Index(index) => Decimal(index)
  }

  // ---------------------------------------------------------------- numerals

  predicate IsDigit(c: char) {
    '0' <= c <= '9'
  }

  function Decimal(n: nat): (text: string)
    ensures |text| > 0 && forall k :: 0 <= k < |text| ==> IsDigit(text[k])
  {
    (if n < 10 then "" else Decimal(n / 10)) + ['0' + (n % 10) as char]
  }

  function Number(text: string): Option<nat> {
    if |text| == 0 || exists k :: 0 <= k < |text| && !IsDigit(text[k]) then None else Some(Digits(text))
  }

  function Digits(text: string): nat
    requires forall k :: 0 <= k < |text| ==> IsDigit(text[k])
  {
    if text == "" then 0
    else
      assert IsDigit(text[|text| - 1]);
      10 * Digits(text[..|text| - 1]) + (text[|text| - 1] as int - '0' as int)
  }

  lemma {:induction false} NumberOfDecimal(n: nat)
    ensures Number(Decimal(n)) == Some(n)
  {
    DigitsOfDecimal(n);
  }

  lemma {:induction false} DigitsOfDecimal(n: nat)
    ensures Digits(Decimal(n)) == n
  {
    var init := if n < 10 then "" else Decimal(n / 10);
    var last := n % 10;
    if n >= 10 {
      DigitsOfDecimal(n / 10);
    }
    assert Digits(init) == n / 10;
    assert Decimal(n) == init + ['0' + last as char];
    hide Decimal;
    DigitsMore(init, last);
  }

  lemma DigitsMore(init: string, last: nat)
    requires last < 10 && forall k :: 0 <= k < |init| ==> IsDigit(init[k])
    ensures var text := init + ['0' + last as char];
            (forall k :: 0 <= k < |text| ==> IsDigit(text[k])) && Digits(text) == 10 * Digits(init) + last
  {
    var text := init + ['0' + last as char];
    assert text[..|text| - 1] == init;
  }

  // ---------------------------------------------------------------- flattening

  function Flatten(value: Json, path: string): seq<Entry>
    decreases value, Size(value) + 1
  {
    if Size(value) == 0 then [Entry(path, value)] else FlattenFrom(value, path, 0)
  }

  function FlattenFrom(value: Json, path: string, i: nat): seq<Entry>
    requires i <= Size(value)
    decreases value, Size(value) - i
  {
    if i == Size(value) then []
    else Flatten(Child(value, i), path + Show(PartAt(value, i))) + FlattenFrom(value, path, i + 1)
  }

  /** Leaves and empty containers. */
  function Leaves(value: Json): nat
    decreases value, Size(value) + 1
  {
    if Size(value) == 0 then 1 else LeavesFrom(value, 0)
  }

  function LeavesFrom(value: Json, i: nat): nat
    requires i <= Size(value)
    decreases value, Size(value) - i
  {
    if i == Size(value) then 0 else Leaves(Child(value, i)) + LeavesFrom(value, i + 1)
  }

  lemma {:induction false} OneEntryPerLeaf(value: Json, path: string)
    ensures |Flatten(value, path)| == Leaves(value)
    decreases value, Size(value) + 1
  {
    if Size(value) > 0 {
      OneEntryPerLeafFrom(value, path, 0);
    }
  }

  lemma {:induction false} OneEntryPerLeafFrom(value: Json, path: string, i: nat)
    requires i <= Size(value)
    ensures |FlattenFrom(value, path, i)| == LeavesFrom(value, i)
    decreases value, Size(value) - i
  {
    if i < Size(value) {
      OneEntryPerLeaf(Child(value, i), path + Show(PartAt(value, i)));
      OneEntryPerLeafFrom(value, path, i + 1);
    }
  }

  // ---------------------------------------------------------------- reading

  /** How many digits the text starts with. */
  function LeadingDigits(text: string): (count: nat)
    ensures count <= |text|
  {
    if text == "" || !IsDigit(text[0]) then 0 else 1 + LeadingDigits(text[1..])
  }

  /** Every "[digits]" becomes ".digits". */
  function Rewrite(path: string): string {
    if path == "" then ""
    else
      var count := LeadingDigits(path[1..]);
      if path[0] == '[' && count > 0 && count + 1 < |path| && path[count + 1] == ']' then
        "." + path[1..count + 1] + Rewrite(path[count + 2..])
      else [path[0]] + Rewrite(path[1..])
  }

  /** The pieces between the dots. */
  function Split(text: string): (pieces: seq<string>)
    ensures |pieces| > 0
  {
    if text == "" then [""]
    else
      var rest := Split(text[1..]);
      if text[0] == '.' then [""] + rest else [[text[0]] + rest[0]] + rest[1..]
  }

  function NonEmpty(pieces: seq<string>): seq<string> {
    if pieces == [] then []
    else (if pieces[0] == "" then [] else [pieces[0]]) + NonEmpty(pieces[1..])
  }

  function Parts(path: string): seq<string> {
    NonEmpty(Split(Rewrite(path)))
  }

  function Lookup(fields: seq<(string, Json)>, name: string): Option<Json> {
    if fields == [] then None
    else if fields[0].0 == name then Some(fields[0].1)
    else Lookup(fields[1..], name)
  }

  function Descend(value: Json, part: string): Option<Json> {
    match value
    case Leaf(_) => None
    case Array(items) =>
      var index := Number(part);
      if index.Some? && index.value < |items| then Some(items[index.value]) else None
    case Object(fields) => Lookup(fields, part)
  }

  function Walk(value: Json, parts: seq<string>): Option<Json>
    decreases |parts|
  {
    if parts == [] then Some(value)
    else
      match Descend(value, parts[0])
      case None => None
      case Some(child) => Walk(child, parts[1..])
  }

  function Read(source: Json, path: string): Option<Json> {
    Walk(source, Parts(path))
  }

  method ReadFlightValue(source: Json, path: string) returns (value: Option<Json>)
    ensures value == Read(source, path)
  {
    var parts := Parts(path);
    var current := source;
    var i := 0;
    while i < |parts|
      invariant 0 <= i <= |parts|
      invariant Walk(source, parts) == Walk(current, parts[i..])
    {
      var next := Descend(current, parts[i]);
      assert parts[i..][0] == parts[i] && parts[i..][1..] == parts[i + 1..];
      if next.None? {
        return None;
      }
      current := next.value;
      i := i + 1;
    }
    return Some(current);
  }

  // ---------------------------------------------------------------- a written path is read back part by part

  predicate GoodName(name: string) {
    name != "" && '.' !in name && '[' !in name
  }

  predicate GoodPart(part: Part) {
    part.Key? ==> GoodName(part.name)
  }

  predicate GoodParts(parts: seq<Part>) {
    forall k :: 0 <= k < |parts| ==> GoodPart(parts[k])
  }

  function Tail(parts: seq<Part>): string {
    if parts == [] then "" else Show(parts[0]) + Tail(parts[1..])
  }

  function Texts(parts: seq<Part>): (texts: seq<string>)
    ensures |texts| == |parts|
  {
    if parts == [] then [] else [Text(parts[0])] + Texts(parts[1..])
  }

  function Dotted(parts: seq<Part>): string {
    if parts == [] then "" else "." + Text(parts[0]) + Dotted(parts[1..])
  }

  lemma {:induction false} TailMore(parts: seq<Part>, last: Part)
    ensures Tail(parts + [last]) == Tail(parts) + Show(last)
  {
    hide Show;
    if parts != [] {
      assert (parts + [last])[1..] == parts[1..] + [last];
      TailMore(parts[1..], last);
      Associates(Show(parts[0]), Tail(parts[1..]), Show(last));
    } else {
      assert [last][1..] == [];
      assert Tail([last]) == Show(last) + "";
    }
  }

  lemma {:induction false} TextsMore(a: seq<Part>, b: seq<Part>)
    ensures Texts(a + b) == Texts(a) + Texts(b)
  {
    if a != [] {
      assert (a + b)[1..] == a[1..] + b;
      TextsMore(a[1..], b);
    } else {
      assert a + b == b;
    }
  }

  lemma RewriteStep(path: string)
    requires path != "" && path[0] != '['
    ensures Rewrite(path) == [path[0]] + Rewrite(path[1..])
  {
  }

  lemma {:induction false} RewriteName(name: string, rest: string)
    requires '[' !in name
    ensures Rewrite(name + rest) == name + Rewrite(rest)
  {
    if name == "" {
      assert name + rest == rest;
    } else {
      RewriteName(name[1..], rest);
      assert (name + rest)[1..] == name[1..] + rest;
      RewriteStep(name + rest);
      hide Rewrite;
      assert name == [name[0]] + name[1..];
    }
  }

  lemma {:induction false} LeadingDigitsOf(digits: string, rest: string)
    requires forall k :: 0 <= k < |digits| ==> IsDigit(digits[k])
    requires rest == "" || !IsDigit(rest[0])
    ensures LeadingDigits(digits + rest) == |digits|
  {
    if digits == "" {
      assert digits + rest == rest;
    } else {
      assert (digits + rest)[1..] == digits[1..] + rest;
      LeadingDigitsOf(digits[1..], rest);
    }
  }

  lemma RewriteIndex(index: nat, rest: string)
    ensures Rewrite("[" + Decimal(index) + "]" + rest) == "." + Decimal(index) + Rewrite(rest)
  {
    var digits := Decimal(index);
    var path := "[" + digits + "]" + rest;
    LeadingDigitsOf(digits, "]" + rest);
    assert path[1..] == digits + ("]" + rest);
    assert path[1..|digits| + 1] == digits && path[|digits| + 1] == ']' && path[|digits| + 2..] == rest;
  }

  lemma {:induction false} RewriteTail(parts: seq<Part>)
    requires GoodParts(parts)
    ensures Rewrite(Tail(parts)) == Dotted(parts)
  {
    if parts != [] {
      var rest := Tail(parts[1..]);
      RewriteTail(parts[1..]);
      match parts[0]
      case Key(name) =>
        assert '[' !in "." + name;
        RewriteName("." + name, rest);
      case Index(index) =>
        RewriteIndex(index, rest);
    }
  }

  lemma {:induction false} SplitPiece(piece: string, rest: string)
    requires '.' !in piece
    ensures Split(piece) == [piece]
    ensures Split(piece + ("." + rest)) == [piece] + Split(rest)
  {
    if piece == "" {
      assert piece + ("." + rest) == "." + rest;
      assert ("." + rest)[1..] == rest;
    } else {
      SplitPiece(piece[1..], rest);
      assert (piece + ("." + rest))[1..] == piece[1..] + ("." + rest);
      assert piece == [piece[0]] + piece[1..];
    }
  }

  lemma TextIsPiece(part: Part)
    requires GoodPart(part)
    ensures '.' !in Text(part) && Text(part) != ""
  {
  }

  lemma Associates(a: string, b: string, c: string)
    ensures (a + b) + c == a + (b + c)
  {
  }

  lemma {:induction false} SplitDotted(first: string, parts: seq<Part>)
    requires '.' !in first && GoodParts(parts)
    ensures Split(first + Dotted(parts)) == [first] + Texts(parts)
    decreases |parts|
  {
    if parts == [] {
      SplitPiece(first, "");
      assert first + Dotted(parts) == first;
    } else {
      var rest := Text(parts[0]) + Dotted(parts[1..]);
      TextIsPiece(parts[0]);
      SplitPiece(first, rest);
      SplitDotted(Text(parts[0]), parts[1..]);
      Associates(".", Text(parts[0]), Dotted(parts[1..]));
      assert [first] + ([Text(parts[0])] + Texts(parts[1..])) == [first] + Texts(parts);
    }
  }

  lemma {:induction false} NonEmptyTexts(parts: seq<Part>)
    requires GoodParts(parts)
    ensures NonEmpty(Texts(parts)) == Texts(parts)
  {
    if parts != [] {
      TextIsPiece(parts[0]);
      NonEmptyTexts(parts[1..]);
    }
  }

  /** Taking a written path apart gives the names and numerals it was written from. */
  lemma PartsOfPath(root: string, parts: seq<Part>)
    requires GoodName(root) && GoodParts(parts)
    ensures Parts(root + Tail(parts)) == [root] + Texts(parts)
  {
    RewriteName(root, Tail(parts));
    RewriteTail(parts);
    SplitDotted(root, parts);
    NonEmptyTexts(parts);
    assert ([root] + Texts(parts))[1..] == Texts(parts);
  }

  // ---------------------------------------------------------------- what is flattened can be read

  /** Field names are usable in paths and unique in their object. */
  ghost predicate GoodTree(value: Json)
    decreases value, 1
  {
    && (value.Object? ==>
          (forall k :: 0 <= k < |value.fields| ==> GoodName(value.fields[k].0)) &&
          (forall k, l :: 0 <= k < l < |value.fields| ==> value.fields[k].0 != value.fields[l].0))
    && (forall i :: 0 <= i < Size(value) ==> GoodTree(Child(value, i)))
  }

  lemma {:induction false} LookupField(fields: seq<(string, Json)>, i: nat)
    requires i < |fields| && forall k, l :: 0 <= k < l < |fields| ==> fields[k].0 != fields[l].0
    ensures Lookup(fields, fields[i].0) == Some(fields[i].1)
  {
    if i > 0 {
      LookupField(fields[1..], i - 1);
    }
  }

  lemma DescendToChild(value: Json, i: nat)
    requires GoodTree(value) && i < Size(value)
    ensures GoodPart(PartAt(value, i)) && Descend(value, Text(PartAt(value, i))) == Some(Child(value, i))
  {
    match value
    case Array(_) => NumberOfDecimal(i);
    case Object(fields) => LookupField(fields, i);
  }

  lemma PartsDiffer(value: Json, i: nat, j: nat)
    requires GoodTree(value) && i < j < Size(value)
    ensures Text(PartAt(value, i)) != Text(PartAt(value, j))
  {
    if value.Array? {
      NumberOfDecimal(i);
      NumberOfDecimal(j);
    }
  }

  /** The entry's path continues `parts`, and walking on from `value` finds the entry's value. */
  ghost predicate Found(value: Json, root: string, parts: seq<Part>, entry: Entry) {
    exists more: seq<Part> :: GoodParts(more) && entry.path == root + Tail(parts + more) &&
                              Walk(value, Texts(more)) == Some(entry.value)
  }

  lemma PathMore(root: string, parts: seq<Part>, last: Part)
    ensures (root + Tail(parts)) + Show(last) == root + Tail(parts + [last])
  {
    TailMore(parts, last);
  }

  lemma WalkFurther(value: Json, i: nat, more: seq<Part>)
    requires GoodTree(value) && i < Size(value)
    ensures Walk(value, Texts([PartAt(value, i)] + more)) == Walk(Child(value, i), Texts(more))
    ensures GoodPart(PartAt(value, i))
  {
    var part := PartAt(value, i);
    DescendToChild(value, i);
    assert ([part] + more)[1..] == more;
    assert Texts([part] + more) == [Text(part)] + Texts(more);
    assert ([Text(part)] + Texts(more))[1..] == Texts(more);
  }

  lemma FoundBelow(value: Json, root: string, parts: seq<Part>, i: nat, entry: Entry)
    requires GoodTree(value) && i < Size(value)
    requires Found(Child(value, i), root, parts + [PartAt(value, i)], entry)
    ensures Found(value, root, parts, entry)
  {
    hide GoodTree, Tail, Texts, Walk;
    var part := PartAt(value, i);
    var more: seq<Part> :| GoodParts(more) && entry.path == root + Tail(parts + [part] + more) &&
                           Walk(Child(value, i), Texts(more)) == Some(entry.value);
    WalkFurther(value, i, more);
    var all := [part] + more;
    assert parts + [part] + more == parts + all;
    assert GoodParts(all) && entry.path == root + Tail(parts + all) && Walk(value, Texts(all)) == Some(entry.value);
  }

  lemma {:induction false} FlattenFinds(value: Json, root: string, parts: seq<Part>, k: nat)
    requires GoodTree(value) && k < |Flatten(value, root + Tail(parts))|
    ensures Found(value, root, parts, Flatten(value, root + Tail(parts))[k])
    decreases value, Size(value) + 1
  {
    if Size(value) == 0 {
      assert parts + [] == parts;
      var none: seq<Part> := [];
      assert GoodParts(none) && Walk(value, Texts(none)) == Some(value);
    } else {
      FlattenFromFinds(value, root, parts, 0, k);
    }
  }

  lemma {:induction false} FlattenFromFinds(value: Json, root: string, parts: seq<Part>, i: nat, k: nat)
    requires GoodTree(value) && i <= Size(value) && k < |FlattenFrom(value, root + Tail(parts), i)|
    ensures Found(value, root, parts, FlattenFrom(value, root + Tail(parts), i)[k])
    decreases value, Size(value) - i
  {
    var part := PartAt(value, i);
    PathMore(root, parts, part);
    var first := Flatten(Child(value, i), root + Tail(parts + [part]));
    if k < |first| {
      FlattenFinds(Child(value, i), root, parts + [part], k);
      FoundBelow(value, root, parts, i, first[k]);
    } else {
      FlattenFromFinds(value, root, parts, i + 1, k - |first|);
    }
  }

  // ---------------------------------------------------------------- paths are distinct

  lemma BelowWhich(value: Json, root: string, parts: seq<Part>, i: nat, k: nat) returns (j: nat)
    requires GoodTree(value) && i <= Size(value) && k < |FlattenFrom(value, root + Tail(parts), i)|
    ensures i <= j < Size(value)
    ensures Found(Child(value, j), root, parts + [PartAt(value, j)], FlattenFrom(value, root + Tail(parts), i)[k])
    decreases Size(value) - i
  {
    var part := PartAt(value, i);
    PathMore(root, parts, part);
    var first := Flatten(Child(value, i), root + Tail(parts + [part]));
    if k < |first| {
      FlattenFinds(Child(value, i), root, parts + [part], k);
      j := i;
    } else {
      j := BelowWhich(value, root, parts, i + 1, k - |first|);
    }
  }

  /** A path found below a part has that part's text in its place. */
  lemma PartInPlace(value: Json, root: string, parts: seq<Part>, part: Part, entry: Entry)
    requires GoodName(root) && GoodParts(parts) && GoodPart(part) && Found(value, root, parts + [part], entry)
    ensures |Parts(entry.path)| > |parts| + 1 && Parts(entry.path)[|parts| + 1] == Text(part)
  {
    var more: seq<Part> :| GoodParts(more) && entry.path == root + Tail(parts + [part] + more) &&
                           Walk(value, Texts(more)) == Some(entry.value);
    var all := parts + [part] + more;
    PartsOfPath(root, all);
    TextsMore(parts + [part], more);
    TextsMore(parts, [part]);
    assert [part][1..] == [];
    assert Texts([part]) == [Text(part)] + Texts([]);
  }

  lemma {:induction false} FlattenDistinct(value: Json, root: string, parts: seq<Part>, k: nat, l: nat)
    requires GoodTree(value) && GoodName(root) && GoodParts(parts) && k < l < |Flatten(value, root + Tail(parts))|
    ensures Flatten(value, root + Tail(parts))[k].path != Flatten(value, root + Tail(parts))[l].path
    decreases value, Size(value) + 1
  {
    if Size(value) > 0 {
      FlattenFromDistinct(value, root, parts, 0, k, l);
    }
  }

  lemma ChildIsGood(value: Json, i: nat)
    requires GoodTree(value) && i < Size(value)
    ensures GoodTree(Child(value, i)) && GoodPart(PartAt(value, i))
  {
  }

  lemma FlattenFromSplits(value: Json, path: string, i: nat)
    requires i < Size(value)
    ensures FlattenFrom(value, path, i) ==
            Flatten(Child(value, i), path + Show(PartAt(value, i))) + FlattenFrom(value, path, i + 1)
  {
  }

  lemma {:induction false} FlattenFromDistinct(value: Json, root: string, parts: seq<Part>, i: nat, k: nat, l: nat)
    requires GoodTree(value) && GoodName(root) && GoodParts(parts)
    requires i <= Size(value) && k < l < |FlattenFrom(value, root + Tail(parts), i)|
    ensures FlattenFrom(value, root + Tail(parts), i)[k].path != FlattenFrom(value, root + Tail(parts), i)[l].path
    decreases value, Size(value) - i
  {
    var path := root + Tail(parts);
    var part := PartAt(value, i);
    PathMore(root, parts, part);
    ChildIsGood(value, i);
    FlattenFromSplits(value, path, i);
    hide GoodTree, Show, Tail, Flatten, FlattenFrom;
    var first := Flatten(Child(value, i), root + Tail(parts + [part]));
    var rest := FlattenFrom(value, path, i + 1);
    if l < |first| {
      FlattenDistinct(Child(value, i), root, parts + [part], k, l);
    } else if k >= |first| {
      FlattenFromDistinct(value, root, parts, i + 1, k - |first|, l - |first|);
    } else {
      ChildrenDistinct(value, root, parts, i, k, l - |first|);
    }
  }

  /** An entry of one child and an entry of a later one. */
  lemma ChildrenDistinct(value: Json, root: string, parts: seq<Part>, i: nat, k: nat, l: nat)
    requires GoodTree(value) && GoodName(root) && GoodParts(parts) && i < Size(value)
    requires k < |Flatten(Child(value, i), root + Tail(parts + [PartAt(value, i)]))|
    requires l < |FlattenFrom(value, root + Tail(parts), i + 1)|
    ensures Flatten(Child(value, i), root + Tail(parts + [PartAt(value, i)]))[k].path !=
            FlattenFrom(value, root + Tail(parts), i + 1)[l].path
  {
    var part := PartAt(value, i);
    DescendToChild(value, i);
    FlattenFinds(Child(value, i), root, parts + [part], k);
    PartInPlace(Child(value, i), root, parts, part, Flatten(Child(value, i), root + Tail(parts + [part]))[k]);
    var j := BelowWhich(value, root, parts, i + 1, l);
    DescendToChild(value, j);
    PartInPlace(Child(value, j), root, parts, PartAt(value, j), FlattenFrom(value, root + Tail(parts), i + 1)[l]);
    PartsDiffer(value, i, j);
  }

  // ---------------------------------------------------------------- the frame

  datatype Group = Group(path: string, entries: seq<Entry>)

  /** The groups of one field of the frame: the children of `telemetry`, or the field itself. */
  function GroupsOf(field: (string, Json)): seq<Group> {
    if field.0 == "telemetry" && field.1.Object? then ChildGroups(field.1, 0)
    else [Group(field.0, Flatten(field.1, field.0))]
  }

  function ChildGroups(value: Json, i: nat): seq<Group>
    requires value.Object? && i <= Size(value)
    decreases Size(value) - i
  {
    if i == Size(value) then []
    else
      var path := "telemetry." + value.fields[i].0;
      [Group(path, Flatten(value.fields[i].1, path))] + ChildGroups(value, i + 1)
  }

  function GroupsFrom(source: Json, i: nat): seq<Group>
    requires source.Object? && i <= Size(source)
    decreases Size(source) - i
  {
    if i == Size(source) then [] else GroupsOf(source.fields[i]) + GroupsFrom(source, i + 1)
  }

  function Frame(source: Json): seq<Group> {
    if source.Object? then GroupsFrom(source, 0) else []
  }

  lemma GroupsAssociate(a: seq<Group>, b: seq<Group>, c: seq<Group>)
    ensures (a + b) + c == a + (b + c)
  {
  }

  /** One group for every child of `telemetry`. */
  method AddChildGroups(before: seq<Group>, value: Json) returns (groups: seq<Group>)
    requires value.Object?
    ensures groups == before + ChildGroups(value, 0)
  {
    hide Flatten;
    groups := before;
    var j := 0;
    while j < |value.fields|
      invariant 0 <= j <= |value.fields|
      invariant before + ChildGroups(value, 0) == groups + ChildGroups(value, j)
    {
      var path := "telemetry." + value.fields[j].0;
      var group := Group(path, Flatten(value.fields[j].1, path));
      GroupsAssociate(groups, [group], ChildGroups(value, j + 1));
      groups := groups + [group];
      j := j + 1;
    }
  }

  lemma GroupsFromSplits(source: Json, i: nat, groups: seq<Group>)
    requires source.Object? && i < Size(source)
    ensures groups + GroupsFrom(source, i) == (groups + GroupsOf(source.fields[i])) + GroupsFrom(source, i + 1)
  {
    hide Flatten, GroupsOf;
    GroupsAssociate(groups, GroupsOf(source.fields[i]), GroupsFrom(source, i + 1));
  }

  /** The groups of one field join the others. */
  method AddGroupsOf(before: seq<Group>, key: string, value: Json) returns (groups: seq<Group>)
    ensures groups == before + GroupsOf((key, value))
  {
    hide Flatten, ChildGroups;
    if key == "telemetry" && value.Object? {
      groups := AddChildGroups(before, value);
      return;
    }
    groups := before + [Group(key, Flatten(value, key))];
  }

  method BuildTelemetryFrameGroups(source: Json) returns (groups: seq<Group>)
    ensures groups == Frame(source)
  {
    hide Flatten, GroupsOf;
    if !source.Object? {
      return [];
    }
    groups := [];
    var i := 0;
    while i < |source.fields|
      invariant 0 <= i <= |source.fields|
      invariant GroupsFrom(source, 0) == groups + GroupsFrom(source, i)
    {
      GroupsFromSplits(source, i, groups);
      var (key, value) := source.fields[i];
      groups := AddGroupsOf(groups, key, value);
      i := i + 1;
    }
  }

  function Entries(groups: seq<Group>): seq<Entry> {
    if groups == [] then [] else groups[0].entries + Entries(groups[1..])
  }

  lemma {:induction false} EntriesConcat(a: seq<Group>, b: seq<Group>)
    ensures Entries(a + b) == Entries(a) + Entries(b)
  {
    if a == [] {
      assert a + b == b;
    } else {
      assert (a + b)[1..] == a[1..] + b;
      EntriesConcat(a[1..], b);
    }
  }

  /** The entries of one field: all of its flattening, except that an empty `telemetry` object has none. */
  function FieldEntries(field: (string, Json)): seq<Entry> {
    if field.0 == "telemetry" && field.1 == Object([]) then [] else Flatten(field.1, field.0)
  }

  lemma {:induction false} ChildGroupEntries(value: Json, i: nat)
    requires value.Object? && i <= Size(value)
    ensures Entries(ChildGroups(value, i)) == FlattenFrom(value, "telemetry", i)
    decreases Size(value) - i
  {
    if i < Size(value) {
      ChildGroupEntries(value, i + 1);
      assert "telemetry." + value.fields[i].0 == "telemetry" + Show(PartAt(value, i));
      var groups := ChildGroups(value, i);
      assert groups[1..] == ChildGroups(value, i + 1);
    }
  }

  lemma GroupEntries(field: (string, Json))
    ensures Entries(GroupsOf(field)) == FieldEntries(field)
  {
    if field.0 == "telemetry" && field.1.Object? {
      ChildGroupEntries(field.1, 0);
    } else {
      var groups := GroupsOf(field);
      assert groups[1..] == [];
      assert Entries(groups) == groups[0].entries + [];
    }
  }

  function EntriesFrom(source: Json, i: nat): seq<Entry>
    requires source.Object? && i <= Size(source)
    decreases Size(source) - i
  {
    if i == Size(source) then [] else FieldEntries(source.fields[i]) + EntriesFrom(source, i + 1)
  }

  lemma {:induction false} GroupsFromEntries(source: Json, i: nat)
    requires source.Object? && i <= Size(source)
    ensures Entries(GroupsFrom(source, i)) == EntriesFrom(source, i)
    decreases Size(source) - i
  {
    hide Flatten, GroupsOf, FieldEntries;
    if i < Size(source) {
      GroupsFromEntries(source, i + 1);
      GroupEntries(source.fields[i]);
      EntriesConcat(GroupsOf(source.fields[i]), GroupsFrom(source, i + 1));
    }
  }

  /** An entry of a field of the frame reads back from the frame, and its path starts with the field's name. */
  lemma FieldReads(source: Json, i: nat, k: nat)
    requires GoodTree(source) && source.Object? && i < Size(source) && k < |FieldEntries(source.fields[i])|
    ensures var entry := FieldEntries(source.fields[i])[k];
            Read(source, entry.path) == Some(entry.value) &&
            |Parts(entry.path)| > 0 && Parts(entry.path)[0] == source.fields[i].0
  {
    var (name, value) := source.fields[i];
    var entry := FieldEntries(source.fields[i])[k];
    assert Child(source, i) == value && GoodName(name);
    assert name + Tail([]) == name;
    FlattenFinds(value, name, [], k);
    var more: seq<Part> :| GoodParts(more) && entry.path == name + Tail([] + more) &&
                           Walk(value, Texts(more)) == Some(entry.value);
    assert [] + more == more;
    PartsOfPath(name, more);
    DescendToChild(source, i);
    assert ([name] + Texts(more))[1..] == Texts(more);
  }

  lemma {:induction false} FrameFieldOf(source: Json, i: nat, k: nat) returns (j: nat, l: nat)
    requires GoodTree(source) && source.Object? && i <= Size(source) && k < |EntriesFrom(source, i)|
    ensures i <= j < Size(source) && l < |FieldEntries(source.fields[j])|
    ensures EntriesFrom(source, i)[k] == FieldEntries(source.fields[j])[l]
    decreases Size(source) - i
  {
    var first := FieldEntries(source.fields[i]);
    if k < |first| {
      j, l := i, k;
    } else {
      j, l := FrameFieldOf(source, i + 1, k - |first|);
    }
  }

  /** Reading any path of the frame returns that entry's value. */
  lemma FrameReadsBack(source: Json, k: nat)
    requires GoodTree(source) && k < |Entries(Frame(source))|
    ensures Read(source, Entries(Frame(source))[k].path) == Some(Entries(Frame(source))[k].value)
  {
    GroupsFromEntries(source, 0);
    var j, l := FrameFieldOf(source, 0, k);
    FieldReads(source, j, l);
  }

  lemma {:induction false} EntriesDistinct(source: Json, i: nat, k: nat, l: nat)
    requires GoodTree(source) && source.Object? && i <= Size(source) && k < l < |EntriesFrom(source, i)|
    ensures EntriesFrom(source, i)[k].path != EntriesFrom(source, i)[l].path
    decreases Size(source) - i
  {
    var (name, value) := source.fields[i];
    var first := FieldEntries(source.fields[i]);
    if l < |first| {
      assert Child(source, i) == value && GoodName(name);
      assert name + Tail([]) == name;
      FlattenDistinct(value, name, [], k, l);
    } else if k >= |first| {
      EntriesDistinct(source, i + 1, k - |first|, l - |first|);
    } else {
      FieldReads(source, i, k);
      var j, m := FrameFieldOf(source, i + 1, l - |first|);
      FieldReads(source, j, m);
    }
  }

  /** No path of the frame occurs twice. */
  lemma FramePathsDistinct(source: Json, k: nat, l: nat)
    requires GoodTree(source) && k < l < |Entries(Frame(source))|
    ensures Entries(Frame(source))[k].path != Entries(Frame(source))[l].path
  {
    GroupsFromEntries(source, 0);
    EntriesDistinct(source, 0, k, l);
  }

  lemma {:induction false} EntriesCount(source: Json, i: nat)
    requires GoodTree(source) && source.Object? && i <= Size(source)
    ensures |EntriesFrom(source, i)| <= LeavesFrom(source, i)
    ensures |EntriesFrom(source, i)| == LeavesFrom(source, i) <==>
              forall k :: i <= k < Size(source) ==> source.fields[k] != ("telemetry", Object([]))
    decreases Size(source) - i
  {
    if i < Size(source) {
      EntriesCount(source, i + 1);
      OneEntryPerLeaf(source.fields[i].1, source.fields[i].0);
      assert Child(source, i) == source.fields[i].1;
    }
  }

  // ---------------------------------------------------------------- the frame lists every leaf

  /** The value the parts lead to. */
  function Follow(value: Json, parts: seq<Part>): Option<Json>
    decreases parts
  {
    if parts == [] then Some(value)
    else
      match (value, parts[0])
      case (Array(items), Index(index)) => if index < |items| then Follow(items[index], parts[1..]) else None
      case (Object(fields), Key(name)) =>
        var child := Lookup(fields, name);
        if child.Some? then Follow(child.value, parts[1..]) else None
      case _ => None
  }

  /** A leaf or an empty container. */
  predicate IsLeaf(value: Json) {
    Size(value) == 0
  }

  lemma {:induction false} LookupIndex(fields: seq<(string, Json)>, name: string) returns (i: nat)
    requires Lookup(fields, name).Some?
    ensures i < |fields| && fields[i] == (name, Lookup(fields, name).value)
    decreases fields
  {
    if fields[0].0 == name {
      i := 0;
    } else {
      var rest := LookupIndex(fields[1..], name);
      i := rest + 1;
    }
  }

  lemma FollowChild(value: Json, parts: seq<Part>) returns (i: nat)
    requires parts != [] && Follow(value, parts).Some?
    ensures i < Size(value) && PartAt(value, i) == parts[0]
    ensures Follow(Child(value, i), parts[1..]) == Follow(value, parts)
  {
    if value.Array? {
      i := parts[0].index;
    } else {
      i := LookupIndex(value.fields, parts[0].name);
    }
  }

  lemma NothingBelowLeaf(value: Json, parts: seq<Part>)
    requires IsLeaf(value) && Follow(value, parts).Some?
    ensures parts == []
  {
    if parts != [] {
      var i := FollowChild(value, parts);
    }
  }

  lemma ChildFollows(value: Json, i: nat, parts: seq<Part>)
    requires GoodTree(value) && i < Size(value)
    ensures Follow(value, [PartAt(value, i)] + parts) == Follow(Child(value, i), parts)
  {
    assert ([PartAt(value, i)] + parts)[1..] == parts;
    if value.Object? {
      LookupField(value.fields, i);
    }
  }

  lemma {:induction false} ChildIsFlattened(value: Json, path: string, i: nat, j: nat, entry: Entry)
    requires j <= i < Size(value) && entry in Flatten(Child(value, i), path + Show(PartAt(value, i)))
    ensures entry in FlattenFrom(value, path, j)
    decreases i - j
  {
    FlattenFromSplits(value, path, j);
    if j < i {
      ChildIsFlattened(value, path, i, j + 1, entry);
    }
  }

  lemma FlattenIsFrom(value: Json, path: string)
    requires !IsLeaf(value)
    ensures Flatten(value, path) == FlattenFrom(value, path, 0)
  {
  }

  lemma EntryFromChild(value: Json, root: string, parts: seq<Part>, i: nat, entry: Entry)
    requires i < Size(value) && entry in Flatten(Child(value, i), root + Tail(parts + [PartAt(value, i)]))
    ensures entry in Flatten(value, root + Tail(parts))
  {
    PathMore(root, parts, PartAt(value, i));
    FlattenIsFrom(value, root + Tail(parts));
    hide Flatten, FlattenFrom, Tail, Show;
    ChildIsFlattened(value, root + Tail(parts), i, 0, entry);
  }

  /** Every leaf of a value is among its entries, under the path of its parts. */
  lemma {:induction false} LeafIsFlattened(value: Json, root: string, parts: seq<Part>, more: seq<Part>)
    requires Follow(value, more).Some? && IsLeaf(Follow(value, more).value)
    ensures Entry(root + Tail(parts + more), Follow(value, more).value) in Flatten(value, root + Tail(parts))
    decreases more
  {
    hide Tail;
    if more == [] {
      assert parts + more == parts;
      assert Flatten(value, root + Tail(parts)) == [Entry(root + Tail(parts), value)];
    } else {
      var i := FollowChild(value, more);
      var entry := Entry(root + Tail(parts + more), Follow(value, more).value);
      hide Follow, Flatten;
      LeafIsFlattened(Child(value, i), root, parts + [more[0]], more[1..]);
      assert parts + [more[0]] + more[1..] == parts + more;
      EntryFromChild(value, root, parts, i, entry);
    }
  }

  /** The entry stands for a leaf the parts lead to. */
  ghost predicate Lists(value: Json, root: string, parts: seq<Part>, entry: Entry, more: seq<Part>) {
    Follow(value, more) == Some(entry.value) && IsLeaf(entry.value) && entry.path == root + Tail(parts + more)
  }

  ghost predicate IsLeafEntry(value: Json, root: string, parts: seq<Part>, entry: Entry) {
    exists more: seq<Part> :: Lists(value, root, parts, entry, more)
  }

  lemma ListsBelow(value: Json, root: string, parts: seq<Part>, i: nat, entry: Entry)
    requires GoodTree(value) && i < Size(value)
    requires IsLeafEntry(Child(value, i), root, parts + [PartAt(value, i)], entry)
    ensures IsLeafEntry(value, root, parts, entry)
  {
    var part := PartAt(value, i);
    var more: seq<Part> :| Lists(Child(value, i), root, parts + [part], entry, more);
    ChildFollows(value, i, more);
    hide GoodTree, Tail, Follow;
    assert parts + [part] + more == parts + ([part] + more);
    assert Lists(value, root, parts, entry, [part] + more);
  }

  /** Every entry of a value is one of its leaves. */
  lemma {:induction false} EntryIsLeaf(value: Json, root: string, parts: seq<Part>, k: nat)
    requires GoodTree(value) && k < |Flatten(value, root + Tail(parts))|
    ensures IsLeafEntry(value, root, parts, Flatten(value, root + Tail(parts))[k])
    decreases value, Size(value) + 1
  {
    if Size(value) == 0 {
      assert parts + [] == parts;
      assert Lists(value, root, parts, Flatten(value, root + Tail(parts))[k], []);
    } else {
      EntryFromIsLeaf(value, root, parts, 0, k);
    }
  }

  lemma {:induction false} EntryFromIsLeaf(value: Json, root: string, parts: seq<Part>, i: nat, k: nat)
    requires GoodTree(value) && i <= Size(value) && k < |FlattenFrom(value, root + Tail(parts), i)|
    ensures IsLeafEntry(value, root, parts, FlattenFrom(value, root + Tail(parts), i)[k])
    decreases value, Size(value) - i
  {
    var part := PartAt(value, i);
    PathMore(root, parts, part);
    ChildIsGood(value, i);
    FlattenFromSplits(value, root + Tail(parts), i);
    hide Flatten, FlattenFrom, GoodTree, Tail, Show, IsLeafEntry;
    var first := Flatten(Child(value, i), root + Tail(parts + [part]));
    if k < |first| {
      EntryIsLeaf(Child(value, i), root, parts + [part], k);
      ListsBelow(value, root, parts, i, first[k]);
    } else {
      EntryFromIsLeaf(value, root, parts, i + 1, k - |first|);
    }
  }

  /** How a path of parts is written from the top of the frame; the first part is a field. */
  function PathOf(parts: seq<Part>): string
    requires parts != [] && parts[0].Key?
  {
    parts[0].name + Tail(parts[1..])
  }

  /** A leaf of the frame with its path, an empty `telemetry` object excepted. */
  ghost predicate LeafOfFrame(source: Json, entry: Entry, parts: seq<Part>) {
    && parts != [] && parts[0].Key? && Follow(source, parts) == Some(entry.value) && IsLeaf(entry.value)
    && entry.path == PathOf(parts) && !(parts == [Key("telemetry")] && entry.value == Object([]))
  }

  lemma {:induction false} FieldIsListed(source: Json, i: nat, j: nat, entry: Entry)
    requires source.Object? && j <= i < Size(source) && entry in FieldEntries(source.fields[i])
    ensures entry in EntriesFrom(source, j)
    decreases i - j
  {
    hide FieldEntries;
    if j < i {
      FieldIsListed(source, i, j + 1, entry);
    }
  }

  lemma LeafIsListed(source: Json, entry: Entry, parts: seq<Part>)
    requires source.Object? && LeafOfFrame(source, entry, parts)
    ensures entry in EntriesFrom(source, 0)
  {
    var i := FollowChild(source, parts);
    var (name, value) := source.fields[i];
    var more := parts[1..];
    assert name == parts[0].name && Child(source, i) == value;
    assert name + Tail([]) == name && [] + more == more;
    LeafIsFlattened(value, name, [], more);
    assert parts == [Key(name)] + more;
    if IsLeaf(value) {
      NothingBelowLeaf(value, more);
    }
    FieldIsListed(source, i, 0, entry);
  }

  /** An entry of a field is one of its leaves. */
  lemma FieldEntryIsLeaf(source: Json, i: nat, k: nat)
    requires GoodTree(source) && source.Object? && i < Size(source) && k < |FieldEntries(source.fields[i])|
    ensures source.fields[i] != ("telemetry", Object([]))
    ensures IsLeafEntry(source.fields[i].1, source.fields[i].0, [], FieldEntries(source.fields[i])[k])
  {
    var (name, value) := source.fields[i];
    ChildIsGood(source, i);
    assert name + Tail([]) == name;
    EntryIsLeaf(value, name, [], k);
  }

  lemma ListedIsLeaf(source: Json, k: nat)
    requires GoodTree(source) && source.Object? && k < |EntriesFrom(source, 0)|
    ensures exists parts: seq<Part> :: LeafOfFrame(source, EntriesFrom(source, 0)[k], parts)
  {
    var j, l := FrameFieldOf(source, 0, k);
    var (name, value) := source.fields[j];
    var entry := EntriesFrom(source, 0)[k];
    FieldEntryIsLeaf(source, j, l);
    hide FieldEntries, EntriesFrom;
    var more: seq<Part> :| Lists(value, name, [], entry, more);
    assert [] + more == more;
    var parts := [Key(name)] + more;
    ChildFollows(source, j, more);
    assert parts[1..] == more;
    assert more == [] ==> entry.value == value;
    hide GoodTree, Tail, Follow;
    assert LeafOfFrame(source, entry, parts);
  }

  /** The frame lists exactly its leaves and empty containers, each under its path, an empty `telemetry` object excepted. */
  lemma FrameListsTheLeaves(source: Json, entry: Entry)
    requires GoodTree(source) && source.Object?
    ensures entry in Entries(Frame(source)) <==> exists parts: seq<Part> :: LeafOfFrame(source, entry, parts)
  {
    GroupsFromEntries(source, 0);
    if entry in EntriesFrom(source, 0) {
      var k :| 0 <= k < |EntriesFrom(source, 0)| && EntriesFrom(source, 0)[k] == entry;
      ListedIsLeaf(source, k);
    }
    if parts: seq<Part> :| LeafOfFrame(source, entry, parts) {
      LeafIsListed(source, entry, parts);
    }
  }

  /** As many entries as leaves and empty containers, unless `telemetry` is an empty object. */
  lemma FrameIsComplete(source: Json)
    requires GoodTree(source) && source.Object?
    ensures |Entries(Frame(source))| == LeavesFrom(source, 0) <==> ("telemetry", Object([])) !in source.fields
  {
    GroupsFromEntries(source, 0);
    EntriesCount(source, 0);
  }
}
