/**
 * The key-name / key-code tables and the per-instance keybinding registry
 * of `glift.keyMappings` (src/util/key_mappings.js).
 *
 * The forward table is a literal list of (name, code) entries in the order
 * the object literal gives them. Its groups are kept as separate constants
 * (digits, upper case, lower case, whitespace, symbols, named keys) so that
 * facts about every entry can be checked group by group.
 */
module KeyMappings {
  import opened Wrappers

  type KeyName = string
  type KeyCode = int

  /** A manager instance id. The empty string is the only falsy id. */
  type InstanceId = string

  /** One `name: code` property of the forward table. */
  type Entry = (KeyName, KeyCode)

  /**
   * What can be bound to a key: a function (identified opaquely) or an
   * icon action path such as "icons.arrowleft.mouseup".
   */
  datatype Binding = Func(handler: nat) | IconPath(path: string)

  /** JavaScript truthiness of a binding: every function is truthy, a string is truthy when non-empty. */
  predicate Truthy(b: Binding) {
    b.Func? || b.path != ""
  }

  // ---------------------------------------------------------------------
  // The forward table `_nameToCode`
  // ---------------------------------------------------------------------

  // One constant per line (or pair of lines) of the literal, so that a fact
  // about every entry can be checked a line at a time.
  const DigitKeys: seq<Entry> := [
    ("0", 48), ("1", 49), ("2", 50), ("3", 51), ("4", 52),
    ("5", 53), ("6", 54), ("7", 55), ("8", 56), ("9", 57)]

  const UpperKeysAK: seq<Entry> := [
    ("A", 65), ("B", 66), ("C", 67), ("D", 68), ("E", 69), ("F", 70),
    ("G", 71), ("H", 72), ("I", 73), ("J", 74), ("K", 75)]
  const UpperKeysLV: seq<Entry> := [
    ("L", 76), ("M", 77), ("N", 78), ("O", 79), ("P", 80), ("Q", 81),
    ("R", 82), ("S", 83), ("T", 84), ("U", 85), ("V", 86)]
  const UpperKeysWZ: seq<Entry> := [("W", 87), ("X", 88), ("Y", 89), ("Z", 90)]

  const LowerKeysAJ: seq<Entry> := [
    ("a", 97), ("b", 98), ("c", 99), ("d", 100), ("e", 101),
    ("f", 102), ("g", 103), ("h", 104), ("i", 105), ("j", 106)]
  const LowerKeysKT: seq<Entry> := [
    ("k", 107), ("l", 108), ("m", 109), ("n", 110), ("o", 111),
    ("p", 112), ("q", 113), ("r", 114), ("s", 115), ("t", 116)]
  const LowerKeysUZ: seq<Entry> := [("u", 117), ("v", 118), ("w", 119), ("x", 120), ("y", 121), ("z", 122)]

  const WhitespaceKeys: seq<Entry> := [(" ", 32), ("\n", 13)]

  // Symbols, in order of appearance on a programmer Dvorak layout.
  const SymbolKeysTildeParen: seq<Entry> := [
    ("~", 126), ("$", 36), ("%", 37), ("&", 38), ("[", 91), ("{", 123), ("}", 125), ("(", 40)]
  const SymbolKeysEqualsSlash: seq<Entry> := [
    ("=", 61), ("*", 42), (")", 41), ("+", 43), ("]", 93), ("!", 33), ("#", 35), ("`", 96), ("/", 47)]
  const SymbolKeysQuestionUnderscore: seq<Entry> := [
    ("?", 63), ("@", 64), ("^", 94), ("\\", 92), ("|", 124), ("-", 45), ("_", 95)]
  const PunctuationKeys: seq<Entry> := [(";", 59), (",", 44), (".", 46), (":", 58), ("<", 60), (">", 62)]
  const QuoteKeys: seq<Entry> := [("'", 39), ("\"", 34)]

  const NamedKeys: seq<Entry> := [
    ("BACKSPACE", 8), ("ESCAPE", 27),
    ("ARROW_LEFT", 37), ("ARROW_UP", 38), ("ARROW_RIGHT", 39), ("ARROW_DOWN", 40)]

  /** The entries up to the first line of symbols. */
  const AlphanumericKeys: seq<Entry> :=
    DigitKeys + UpperKeysAK + UpperKeysLV + UpperKeysWZ + LowerKeysAJ + LowerKeysKT + LowerKeysUZ
    + WhitespaceKeys

  /** The lines of symbols after the first. */
  const LaterSymbolKeys: seq<Entry> :=
    SymbolKeysEqualsSlash + SymbolKeysQuestionUnderscore + PunctuationKeys + QuoteKeys

  /** Everything before the named keys. */
  const PrintableKeys: seq<Entry> := AlphanumericKeys + SymbolKeysTildeParen + LaterSymbolKeys

  /**
   * The whole table `_nameToCode`, in enumeration order. (A JavaScript object
   * enumerates integer-like keys first, in ascending order; here those are
   * "0".."9", which the literal already lists first.)
   */
  const NameToCodeTable: seq<Entry> := PrintableKeys + NamedKeys

  /**
   * The code the table gives `name`: a one-character name has its character
   * code, except that the newline is Enter (13); the named keys have their
   * standard codes; any other name has none (0).
   */
  function CodeOfName(name: KeyName): KeyCode {
    if name == "\n" then 13
    else if |name| == 1 then name[0] as int
    else if name == "BACKSPACE" then 8
    else if name == "ESCAPE" then 27
    else if name == "ARROW_LEFT" then 37
    else if name == "ARROW_UP" then 38
    else if name == "ARROW_RIGHT" then 39
    else if name == "ARROW_DOWN" then 40
    else 0
  }

  /** Codes 37-40 belong both to printable symbols and to the arrow keys. */
  predicate SharedCode(code: KeyCode) {
    37 <= code <= 40
  }

  /** The name the table gives a code that only one entry has. */
  function NameOfCode(code: KeyCode): KeyName {
    if code == 13 then "\n"
    else if code == 8 then "BACKSPACE"
    else if code == 27 then "ESCAPE"
    else if 0 <= code < 0xD800 then [code as char]
    else ""
  }

  /** What every entry of the table satisfies. */
  ghost predicate EntryWellFormed(e: Entry) {
    && e.1 > 0 && e.0 != ""
    && e.1 == CodeOfName(e.0)
    && (!SharedCode(e.1) ==> e.0 == NameOfCode(e.1))
  }

  ghost predicate AllEntriesWellFormed(es: seq<Entry>) {
    forall e :: e in es ==> EntryWellFormed(e)
  }

  lemma DigitKeysWellFormed() ensures AllEntriesWellFormed(DigitKeys) {
    assert EntryWellFormed(("0", 48)) && EntryWellFormed(("1", 49)) && EntryWellFormed(("2", 50));
    assert EntryWellFormed(("3", 51)) && EntryWellFormed(("4", 52)) && EntryWellFormed(("5", 53));
    assert EntryWellFormed(("6", 54)) && EntryWellFormed(("7", 55)) && EntryWellFormed(("8", 56));
    assert EntryWellFormed(("9", 57));
  }
  lemma UpperKeysAKWellFormed() ensures AllEntriesWellFormed(UpperKeysAK) {
    assert EntryWellFormed(("A", 65)) && EntryWellFormed(("B", 66)) && EntryWellFormed(("C", 67));
    assert EntryWellFormed(("D", 68)) && EntryWellFormed(("E", 69)) && EntryWellFormed(("F", 70));
    assert EntryWellFormed(("G", 71)) && EntryWellFormed(("H", 72)) && EntryWellFormed(("I", 73));
    assert EntryWellFormed(("J", 74)) && EntryWellFormed(("K", 75));
  }
  lemma UpperKeysLVWellFormed() ensures AllEntriesWellFormed(UpperKeysLV) {
    assert EntryWellFormed(("L", 76)) && EntryWellFormed(("M", 77)) && EntryWellFormed(("N", 78));
    assert EntryWellFormed(("O", 79)) && EntryWellFormed(("P", 80)) && EntryWellFormed(("Q", 81));
    assert EntryWellFormed(("R", 82)) && EntryWellFormed(("S", 83)) && EntryWellFormed(("T", 84));
    assert EntryWellFormed(("U", 85)) && EntryWellFormed(("V", 86));
  }
  lemma UpperKeysWZWellFormed() ensures AllEntriesWellFormed(UpperKeysWZ) {
    assert EntryWellFormed(("W", 87)) && EntryWellFormed(("X", 88)) && EntryWellFormed(("Y", 89));
    assert EntryWellFormed(("Z", 90));
  }
  lemma LowerKeysAJWellFormed() ensures AllEntriesWellFormed(LowerKeysAJ) {
    assert EntryWellFormed(("a", 97)) && EntryWellFormed(("b", 98)) && EntryWellFormed(("c", 99));
    assert EntryWellFormed(("d", 100)) && EntryWellFormed(("e", 101)) && EntryWellFormed(("f", 102));
    assert EntryWellFormed(("g", 103)) && EntryWellFormed(("h", 104)) && EntryWellFormed(("i", 105));
    assert EntryWellFormed(("j", 106));
  }
  lemma LowerKeysKTWellFormed() ensures AllEntriesWellFormed(LowerKeysKT) {
    assert EntryWellFormed(("k", 107)) && EntryWellFormed(("l", 108)) && EntryWellFormed(("m", 109));
    assert EntryWellFormed(("n", 110)) && EntryWellFormed(("o", 111)) && EntryWellFormed(("p", 112));
    assert EntryWellFormed(("q", 113)) && EntryWellFormed(("r", 114)) && EntryWellFormed(("s", 115));
    assert EntryWellFormed(("t", 116));
  }
  lemma LowerKeysUZWellFormed() ensures AllEntriesWellFormed(LowerKeysUZ) {
    assert EntryWellFormed(("u", 117)) && EntryWellFormed(("v", 118)) && EntryWellFormed(("w", 119));
    assert EntryWellFormed(("x", 120)) && EntryWellFormed(("y", 121)) && EntryWellFormed(("z", 122));
  }
  lemma WhitespaceKeysWellFormed() ensures AllEntriesWellFormed(WhitespaceKeys) {
    assert EntryWellFormed((" ", 32)) && EntryWellFormed(("\n", 13));
  }
  lemma SymbolKeysTildeParenWellFormed() ensures AllEntriesWellFormed(SymbolKeysTildeParen) {
    assert EntryWellFormed(("~", 126)) && EntryWellFormed(("$", 36)) && EntryWellFormed(("%", 37));
    assert EntryWellFormed(("&", 38)) && EntryWellFormed(("[", 91)) && EntryWellFormed(("{", 123));
    assert EntryWellFormed(("}", 125)) && EntryWellFormed(("(", 40));
  }
  lemma SymbolKeysEqualsSlashWellFormed() ensures AllEntriesWellFormed(SymbolKeysEqualsSlash) {
    assert EntryWellFormed(("=", 61)) && EntryWellFormed(("*", 42)) && EntryWellFormed((")", 41));
    assert EntryWellFormed(("+", 43)) && EntryWellFormed(("]", 93)) && EntryWellFormed(("!", 33));
    assert EntryWellFormed(("#", 35)) && EntryWellFormed(("`", 96)) && EntryWellFormed(("/", 47));
  }
  lemma SymbolKeysQuestionUnderscoreWellFormed() ensures AllEntriesWellFormed(SymbolKeysQuestionUnderscore) {
    assert EntryWellFormed(("?", 63)) && EntryWellFormed(("@", 64)) && EntryWellFormed(("^", 94));
    assert EntryWellFormed(("\\", 92)) && EntryWellFormed(("|", 124)) && EntryWellFormed(("-", 45));
    assert EntryWellFormed(("_", 95));
  }
  lemma PunctuationKeysWellFormed() ensures AllEntriesWellFormed(PunctuationKeys) {
    assert EntryWellFormed((";", 59)) && EntryWellFormed((",", 44)) && EntryWellFormed((".", 46));
    assert EntryWellFormed((":", 58)) && EntryWellFormed(("<", 60)) && EntryWellFormed((">", 62));
  }
  lemma QuoteKeysWellFormed() ensures AllEntriesWellFormed(QuoteKeys) {
    assert EntryWellFormed(("'", 39)) && EntryWellFormed(("\"", 34));
  }
  lemma NamedKeysWellFormed() ensures AllEntriesWellFormed(NamedKeys) {
    assert EntryWellFormed(("BACKSPACE", 8)) && EntryWellFormed(("ESCAPE", 27)) && EntryWellFormed(("ARROW_LEFT", 37));
    assert EntryWellFormed(("ARROW_UP", 38)) && EntryWellFormed(("ARROW_RIGHT", 39)) && EntryWellFormed(("ARROW_DOWN", 40));
  }

  lemma AppendWellFormed(a: seq<Entry>, b: seq<Entry>)
    requires AllEntriesWellFormed(a) && AllEntriesWellFormed(b)
    ensures AllEntriesWellFormed(a + b)
  {
  }

  lemma AlphanumericKeysWellFormed()
    ensures AllEntriesWellFormed(AlphanumericKeys)
  {
    var acc := DigitKeys;
    DigitKeysWellFormed();
    UpperKeysAKWellFormed();
    AppendWellFormed(acc, UpperKeysAK);
    acc := acc + UpperKeysAK;
    UpperKeysLVWellFormed();
    AppendWellFormed(acc, UpperKeysLV);
    acc := acc + UpperKeysLV;
    UpperKeysWZWellFormed();
    AppendWellFormed(acc, UpperKeysWZ);
    acc := acc + UpperKeysWZ;
    LowerKeysAJWellFormed();
    AppendWellFormed(acc, LowerKeysAJ);
    acc := acc + LowerKeysAJ;
    LowerKeysKTWellFormed();
    AppendWellFormed(acc, LowerKeysKT);
    acc := acc + LowerKeysKT;
    LowerKeysUZWellFormed();
    AppendWellFormed(acc, LowerKeysUZ);
    acc := acc + LowerKeysUZ;
    WhitespaceKeysWellFormed();
    AppendWellFormed(acc, WhitespaceKeys);
  }

  lemma LaterSymbolKeysWellFormed()
    ensures AllEntriesWellFormed(LaterSymbolKeys)
  {
    var acc := SymbolKeysEqualsSlash;
    SymbolKeysEqualsSlashWellFormed();
    SymbolKeysQuestionUnderscoreWellFormed();
    AppendWellFormed(acc, SymbolKeysQuestionUnderscore);
    acc := acc + SymbolKeysQuestionUnderscore;
    PunctuationKeysWellFormed();
    AppendWellFormed(acc, PunctuationKeys);
    acc := acc + PunctuationKeys;
    QuoteKeysWellFormed();
    AppendWellFormed(acc, QuoteKeys);
  }

  lemma TableWellFormed()
    ensures AllEntriesWellFormed(NameToCodeTable)
  {
    AlphanumericKeysWellFormed();
    SymbolKeysTildeParenWellFormed();
    LaterSymbolKeysWellFormed();
    AppendWellFormed(AlphanumericKeys, SymbolKeysTildeParen);
    AppendWellFormed(AlphanumericKeys + SymbolKeysTildeParen, LaterSymbolKeys);
    NamedKeysWellFormed();
    AppendWellFormed(PrintableKeys, NamedKeys);
  }

  // ---------------------------------------------------------------------
  // Lookups in a list of entries
  // ---------------------------------------------------------------------

  /**
   * The code of the LAST entry called `name`: a later duplicate property of
   * an object literal replaces an earlier one.
   */
  function LastCodeOf(es: seq<Entry>, name: KeyName): Option<KeyCode> {
    if es == [] then None
    else if es[|es| - 1].0 == name then Some(es[|es| - 1].1)
    else LastCodeOf(es[..|es| - 1], name)
  }

  /**
   * The name of the LAST entry whose code is `code`, which is what a loop
   * writing `out[code] = name` in table order leaves behind.
   */
  function LastNameOf(es: seq<Entry>, code: KeyCode): Option<KeyName> {
    if es == [] then None
    else if es[|es| - 1].1 == code then Some(es[|es| - 1].0)
    else LastNameOf(es[..|es| - 1], code)
  }

  /** A name is found exactly when some entry has it, and what is found is one of its entries. */
  lemma {:induction false} LastCodeOfFound(es: seq<Entry>, name: KeyName)
    ensures LastCodeOf(es, name).None? <==> forall e :: e in es ==> e.0 != name
    ensures LastCodeOf(es, name).Some? ==> (name, LastCodeOf(es, name).value) in es
  {
    if es != [] {
      var rest := es[..|es| - 1];
      assert es == rest + [es[|es| - 1]];
      LastCodeOfFound(rest, name);
    }
  }

  /** A code is found exactly when some entry has it, and what is found is one of its entries. */
  lemma {:induction false} LastNameOfFound(es: seq<Entry>, code: KeyCode)
    ensures LastNameOf(es, code).None? <==> forall e :: e in es ==> e.1 != code
    ensures LastNameOf(es, code).Some? ==> (LastNameOf(es, code).value, code) in es
  {
    if es != [] {
      var rest := es[..|es| - 1];
      assert es == rest + [es[|es| - 1]];
      LastNameOfFound(rest, code);
    }
  }

  /** Later entries win: a lookup in `a + b` answers from `b` when `b` has the name. */
  lemma {:induction false} LastCodeOfAppend(a: seq<Entry>, b: seq<Entry>, name: KeyName)
    ensures LastCodeOf(a + b, name) == if LastCodeOf(b, name).Some? then LastCodeOf(b, name) else LastCodeOf(a, name)
  {
    if b == [] {
      assert a + b == a;
    } else {
      assert (a + b)[..|a + b| - 1] == a + b[..|b| - 1];
      LastCodeOfAppend(a, b[..|b| - 1], name);
    }
  }

  /** Later entries win: a reverse lookup in `a + b` answers from `b` when `b` has the code. */
  lemma {:induction false} LastNameOfAppend(a: seq<Entry>, b: seq<Entry>, code: KeyCode)
    ensures LastNameOf(a + b, code) == if LastNameOf(b, code).Some? then LastNameOf(b, code) else LastNameOf(a, code)
  {
    if b == [] {
      assert a + b == a;
    } else {
      assert (a + b)[..|a + b| - 1] == a + b[..|b| - 1];
      LastNameOfAppend(a, b[..|b| - 1], code);
    }
  }

  /** In a well-formed list, the code found for a name is its CodeOfName, and it is positive. */
  lemma LastCodeOfWellFormed(es: seq<Entry>, name: KeyName)
    requires AllEntriesWellFormed(es)
    ensures LastCodeOf(es, name).Some? ==>
      LastCodeOf(es, name).value == CodeOfName(name) && LastCodeOf(es, name).value > 0
  {
    LastCodeOfFound(es, name);
  }

  /**
   * In a well-formed list, the name found for a code is non-empty and has
   * that code, and it is NameOfCode unless the code is shared.
   */
  lemma LastNameOfWellFormed(es: seq<Entry>, code: KeyCode)
    requires AllEntriesWellFormed(es)
    ensures LastNameOf(es, code).Some? ==>
      && LastNameOf(es, code).value != ""
      && CodeOfName(LastNameOf(es, code).value) == code
      && (!SharedCode(code) ==> LastNameOf(es, code).value == NameOfCode(code))
  {
    LastNameOfFound(es, code);
  }

  /** In a well-formed list, a name whose code is not shared comes back from the reverse lookup. */
  lemma NameRoundTripIn(es: seq<Entry>, name: KeyName)
    requires AllEntriesWellFormed(es)
    requires LastCodeOf(es, name).Some? && !SharedCode(LastCodeOf(es, name).value)
    ensures LastNameOf(es, LastCodeOf(es, name).value) == Some(name)
  {
    var code := LastCodeOf(es, name).value;
    LastCodeOfFound(es, name);
    LastNameOfFound(es, code);
    LastNameOfWellFormed(es, code);
  }

  /** In a well-formed list, every name the reverse lookup gives has the code it was found under. */
  lemma CodeRoundTripIn(es: seq<Entry>, code: KeyCode)
    requires AllEntriesWellFormed(es)
    requires LastNameOf(es, code).Some?
    ensures LastCodeOf(es, LastNameOf(es, code).value) == Some(code)
  {
    var name := LastNameOf(es, code).value;
    LastNameOfFound(es, code);
    LastCodeOfFound(es, name);
    LastCodeOfWellFormed(es, name);
  }

  /** The entry `e` decides the reverse lookup of its code when no later entry has that code. */
  lemma LastNameOfWinner(a: seq<Entry>, e: Entry, b: seq<Entry>)
    requires forall x :: x in b ==> x.1 != e.1
    ensures LastNameOf(a + [e] + b, e.1) == Some(e.0)
  {
    LastNameOfFound(b, e.1);
    LastNameOfAppend(a + [e], b, e.1);
  }

  // ---------------------------------------------------------------------
  // `nameToCode` and `codeToName`
  // ---------------------------------------------------------------------

  /**
   * `nameToCode`: the table's code for `name` if that code is truthy, else
   * None. Every code is positive, so this is exactly the table lookup, and
   * the code is the one CodeOfName gives.
   */
  function NameToCode(name: KeyName): (r: Option<KeyCode>)
    ensures r == LastCodeOf(NameToCodeTable, name)
    ensures r.Some? ==> r.value == CodeOfName(name) && r.value > 0
  {
    TableWellFormed();
    LastCodeOfWellFormed(NameToCodeTable, name);
    match LastCodeOf(NameToCodeTable, name)
    case Some(c) => if c != 0 then Some(c) else None
    case None => None
  }

  /** `nameToCode` answers None exactly for the names no entry has. */
  lemma NameToCodeMissing(name: KeyName)
    ensures NameToCode(name).None? <==> forall e :: e in NameToCodeTable ==> e.0 != name
  {
    LastCodeOfFound(NameToCodeTable, name);
  }

  /** The empty name is unknown, so `registerKeyAction`'s later `keyName` test never fails. */
  lemma EmptyNameUnknown()
    ensures NameToCode("").None?
  {
  }

  /**
   * What `codeToName` answers once its reverse table exists: the name the
   * reverse table holds for the code if it is truthy, else None. Every name
   * is non-empty, so this is exactly the last entry with that code; that
   * name has the code, and is NameOfCode unless the code is shared.
   */
  function CodeToNameOf(keyCode: KeyCode): (r: Option<KeyName>)
    ensures r == LastNameOf(NameToCodeTable, keyCode)
    ensures r.Some? ==> r.value != "" && CodeOfName(r.value) == keyCode
    ensures r.Some? && !SharedCode(keyCode) ==> r.value == NameOfCode(keyCode)
  {
    TableWellFormed();
    LastNameOfWellFormed(NameToCodeTable, keyCode);
    match LastNameOf(NameToCodeTable, keyCode)
    case Some(n) => if n != "" then Some(n) else None
    case None => None
  }

  /** `codeToName` answers None exactly for the codes no entry has. */
  lemma CodeToNameMissing(keyCode: KeyCode)
    ensures CodeToNameOf(keyCode).None? <==> forall e :: e in NameToCodeTable ==> e.1 != keyCode
  {
    LastNameOfFound(NameToCodeTable, keyCode);
  }

  /** `codeToName(nameToCode(name)) == name` for every known name whose code is not shared. */
  lemma NameCodeRoundTrip(name: KeyName)
    requires NameToCode(name).Some? && !SharedCode(NameToCode(name).value)
    ensures CodeToNameOf(NameToCode(name).value) == Some(name)
  {
    TableWellFormed();
    NameRoundTripIn(NameToCodeTable, name);
  }

  /** `nameToCode(codeToName(code)) == code` for every known code. */
  lemma CodeNameRoundTrip(keyCode: KeyCode)
    requires CodeToNameOf(keyCode).Some?
    ensures NameToCode(CodeToNameOf(keyCode).value) == Some(keyCode)
  {
    TableWellFormed();
    CodeRoundTripIn(NameToCodeTable, keyCode);
  }

  /** Within the named keys, each arrow key is the last entry with its code. */
  lemma NamedKeysReverse()
    ensures LastNameOf(NamedKeys, 37) == Some("ARROW_LEFT")
    ensures LastNameOf(NamedKeys, 38) == Some("ARROW_UP")
    ensures LastNameOf(NamedKeys, 39) == Some("ARROW_RIGHT")
    ensures LastNameOf(NamedKeys, 40) == Some("ARROW_DOWN")
  {
    var p, l, u, rt, d := [("BACKSPACE", 8), ("ESCAPE", 27)], ("ARROW_LEFT", 37), ("ARROW_UP", 38), ("ARROW_RIGHT", 39), ("ARROW_DOWN", 40);
    assert NamedKeys == p + [l] + [u, rt, d];
    LastNameOfWinner(p, l, [u, rt, d]);
    assert NamedKeys == (p + [l]) + [u] + [rt, d];
    LastNameOfWinner(p + [l], u, [rt, d]);
    assert NamedKeys == (p + [l, u]) + [rt] + [d];
    LastNameOfWinner(p + [l, u], rt, [d]);
    assert NamedKeys == (p + [l, u, rt]) + [d] + [];
    LastNameOfWinner(p + [l, u, rt], d, []);
  }

  /** The arrow keys win the reverse table: they come after the symbols that share their codes. */
  lemma ArrowCodesToNames()
    ensures CodeToNameOf(37) == Some("ARROW_LEFT")
    ensures CodeToNameOf(38) == Some("ARROW_UP")
    ensures CodeToNameOf(39) == Some("ARROW_RIGHT")
    ensures CodeToNameOf(40) == Some("ARROW_DOWN")
  {
    NamedKeysReverse();
    LastNameOfAppend(PrintableKeys, NamedKeys, 37);
    LastNameOfAppend(PrintableKeys, NamedKeys, 38);
    LastNameOfAppend(PrintableKeys, NamedKeys, 39);
    LastNameOfAppend(PrintableKeys, NamedKeys, 40);
  }

  /** A name some entry has is known, with the code CodeOfName gives. */
  lemma KnownName(name: KeyName, code: KeyCode)
    requires (name, code) in NameToCodeTable
    ensures NameToCode(name) == Some(CodeOfName(name))
  {
    LastCodeOfFound(NameToCodeTable, name);
  }

  /**
   * The forward table is not injective: '%', '&', ''' and '(' share their
   * codes with the arrow keys, and the reverse table keeps the arrow keys,
   * so those four symbols do not survive `codeToName(nameToCode(s))`.
   */
  lemma ArrowKeysShadowSymbols()
    ensures NameToCode("%") == NameToCode("ARROW_LEFT") == Some(37)
    ensures NameToCode("&") == NameToCode("ARROW_UP") == Some(38)
    ensures NameToCode("'") == NameToCode("ARROW_RIGHT") == Some(39)
    ensures NameToCode("(") == NameToCode("ARROW_DOWN") == Some(40)
    ensures CodeToNameOf(37) == Some("ARROW_LEFT") && CodeToNameOf(38) == Some("ARROW_UP")
    ensures CodeToNameOf(39) == Some("ARROW_RIGHT") && CodeToNameOf(40) == Some("ARROW_DOWN")
  {
    ArrowCodesToNames();
    assert ("%", 37) in SymbolKeysTildeParen && ("&", 38) in SymbolKeysTildeParen && ("(", 40) in SymbolKeysTildeParen;
    assert ("'", 39) in QuoteKeys;
    KnownName("%", 37);
    KnownName("&", 38);
    KnownName("'", 39);
    KnownName("(", 40);
    assert NamedKeys[2] == ("ARROW_LEFT", 37) && NamedKeys[3] == ("ARROW_UP", 38);
    assert NamedKeys[4] == ("ARROW_RIGHT", 39) && NamedKeys[5] == ("ARROW_DOWN", 40);
    KnownName("ARROW_LEFT", 37);
    KnownName("ARROW_UP", 38);
    KnownName("ARROW_RIGHT", 39);
    KnownName("ARROW_DOWN", 40);
  }

  /** `out` is the reverse of `es`: each code some entry has, mapped to the last name with it. */
  ghost predicate IsReverseOf(out: map<KeyCode, KeyName>, es: seq<Entry>) {
    forall c :: (c in out <==> LastNameOf(es, c).Some?) && (c in out ==> out[c] == LastNameOf(es, c).value)
  }

  /** The loop of `codeToName` that builds `_codeToName` by writing `out[code] = name` for each entry in order. */
  method ReverseTable(es: seq<Entry>) returns (out: map<KeyCode, KeyName>)
    ensures IsReverseOf(out, es)
  {
    out := map[];
    var k := 0;
    while k < |es|
      invariant 0 <= k <= |es|
      invariant IsReverseOf(out, es[..k])
    {
      assert es[..k + 1][..k] == es[..k];
      out := out[es[k].1 := es[k].0];
      k := k + 1;
    }
    assert es[..k] == es;
  }

  // ---------------------------------------------------------------------
  // The keybinding registry `_keyBindingMap`: id -> key name -> binding
  // ---------------------------------------------------------------------

  type BindingMap = map<InstanceId, map<KeyName, Binding>>

  /** What the registry keeps: only truthy bindings, only under names the table knows. */
  ghost predicate WellFormed(m: BindingMap) {
    forall id :: id in m ==> BindingsWellFormed(m[id])
  }

  /** The bindings of one instance: truthy, and only under names the table knows. */
  ghost predicate BindingsWellFormed(bindings: map<KeyName, Binding>) {
    forall k :: k in bindings ==> Truthy(bindings[k]) && NameToCode(k).Some?
  }

  /** `getFuncOrIcon`: the binding for (`id`, `keyName`) when both are truthy and a truthy binding is stored. */
  function FuncOrIcon(m: BindingMap, id: InstanceId, keyName: KeyName): (r: Option<Binding>)
    ensures r.Some? <==> id != "" && keyName != "" && id in m && keyName in m[id] && Truthy(m[id][keyName])
    ensures r.Some? ==> r.value == m[id][keyName]
  {
    if id != "" && keyName != "" && id in m && keyName in m[id] && Truthy(m[id][keyName])
    then Some(m[id][keyName])
    else None
  }

  /** The registry after `registerKeyAction(id, keyName, funcOrIcon)`. */
  function Register(m: BindingMap, id: InstanceId, keyName: KeyName, funcOrIcon: Binding): (r: BindingMap)
    ensures NameToCode(keyName).None? ==> r == m
    ensures NameToCode(keyName).Some? ==> id in r && r.Keys == m.Keys + {id}
    ensures forall other :: other != id ==> (other in r <==> other in m)
    ensures forall other :: other != id && other in r ==> r[other] == m[other]
    ensures id in m && id in r ==> forall k :: k != keyName ==> (k in r[id] <==> k in m[id])
    ensures id in m && id in r ==> forall k :: k != keyName && k in r[id] ==> r[id][k] == m[id][k]
    ensures id !in m && id in r && !(NameToCode(keyName).Some? && id != "" && Truthy(funcOrIcon)) ==> r[id] == map[]
    ensures id !in m && NameToCode(keyName).Some? && id != "" && Truthy(funcOrIcon) ==> r[id] == map[keyName := funcOrIcon]
    ensures NameToCode(keyName).Some? && id != "" && Truthy(funcOrIcon) ==> keyName in r[id] && r[id][keyName] == funcOrIcon
    ensures !(NameToCode(keyName).Some? && id != "" && Truthy(funcOrIcon)) && id in m ==> r[id] == m[id]
  {
    if NameToCode(keyName).None? then m
    else
      EmptyNameUnknown();
      var withInner := if id in m then m else m[id := map[]];
      if id != "" && keyName != "" && Truthy(funcOrIcon)
      then withInner[id := withInner[id][keyName := funcOrIcon]]
      else withInner
  }

  /**
   * What `getFuncOrIcon` sees after `registerKeyAction`: the new binding
   * when it was stored, otherwise what it saw before; the registry stays
   * well formed.
   */
  lemma RegisterLookup(m: BindingMap, id: InstanceId, keyName: KeyName, funcOrIcon: Binding)
    ensures forall k :: k != keyName ==> FuncOrIcon(Register(m, id, keyName, funcOrIcon), id, k) == FuncOrIcon(m, id, k)
    ensures NameToCode(keyName).Some? && id != "" && Truthy(funcOrIcon) ==>
      FuncOrIcon(Register(m, id, keyName, funcOrIcon), id, keyName) == Some(funcOrIcon)
    ensures !(NameToCode(keyName).Some? && id != "" && Truthy(funcOrIcon)) ==>
      FuncOrIcon(Register(m, id, keyName, funcOrIcon), id, keyName) == FuncOrIcon(m, id, keyName)
    ensures forall other, k :: other != id ==> FuncOrIcon(Register(m, id, keyName, funcOrIcon), other, k) == FuncOrIcon(m, other, k)
    ensures WellFormed(m) ==> WellFormed(Register(m, id, keyName, funcOrIcon))
  {
    EmptyNameUnknown();
    var r := Register(m, id, keyName, funcOrIcon);
    if WellFormed(m) {
      forall other | other in r ensures BindingsWellFormed(r[other]) {
        if other != id {
          assert r[other] == m[other];
        }
      }
    }
  }

  /** The named keys come last in the table, so they decide the code of every name they hold. */
  lemma NamedKeysDecideCodes(name: KeyName)
    requires LastCodeOf(NamedKeys, name).Some?
    ensures NameToCode(name) == LastCodeOf(NamedKeys, name)
  {
    LastCodeOfAppend(PrintableKeys, NamedKeys, name);
  }

  /** The registry after `unregisterInstance(id)`. */
  function Unregister(m: BindingMap, id: InstanceId): (r: BindingMap)
    ensures id !in r && r.Keys == m.Keys - {id}
    ensures forall k :: FuncOrIcon(r, id, k) == None
    ensures forall other :: other != id && other in r ==> r[other] == m[other]
    ensures WellFormed(m) ==> WellFormed(r)
  {
    if id in m then m - {id} else m
  }

  /** Registering then unregistering an id forgets everything about that id and nothing else. */
  lemma RegisterThenUnregister(m: BindingMap, id: InstanceId, keyName: KeyName, funcOrIcon: Binding)
    ensures Unregister(Register(m, id, keyName, funcOrIcon), id) == Unregister(m, id)
  {
    var lhs, rhs := Unregister(Register(m, id, keyName, funcOrIcon), id), Unregister(m, id);
    assert lhs.Keys == rhs.Keys;
  }

  /**
   * The mutable state of the `glift.keyMappings` singleton: the lazily built
   * reverse table and the keybinding registry.
   */
  class KeyMappingsState {
    var codeToNameCache: Option<map<KeyCode, KeyName>>
    var keyBindingMap: BindingMap

    ghost predicate Valid()
      reads this
    {
      && (codeToNameCache.Some? ==> IsReverseOf(codeToNameCache.value, NameToCodeTable))
      && WellFormed(keyBindingMap)
    }

    constructor ()
      ensures Valid() && codeToNameCache == None && keyBindingMap == map[]
    {
      codeToNameCache := None;
      keyBindingMap := map[];
    }

    /**
     * `codeToName`: builds the reverse table on the first call only, then
     * answers from it.
     */
    method CodeToName(keyCode: KeyCode) returns (r: Option<KeyName>)
      requires Valid()
      modifies this`codeToNameCache
      ensures Valid() && codeToNameCache.Some?
      ensures old(codeToNameCache).Some? ==> codeToNameCache == old(codeToNameCache)
      ensures r == CodeToNameOf(keyCode)
    {
      if codeToNameCache.None? {
        var out := ReverseTable(NameToCodeTable);
        codeToNameCache := Some(out);
      }
      var table := codeToNameCache.value;
      if keyCode in table && table[keyCode] != "" {
        r := Some(table[keyCode]);
      } else {
        r := None;
      }
    }

    /** Once the reverse table exists, `codeToName` changes nothing: it is idempotent. */
    method CodeToNameTwice(keyCode: KeyCode) returns (first: Option<KeyName>, second: Option<KeyName>)
      requires Valid()
      modifies this`codeToNameCache
      ensures Valid() && first == second == CodeToNameOf(keyCode)
      ensures codeToNameCache.Some? && (old(codeToNameCache).Some? ==> codeToNameCache == old(codeToNameCache))
    {
      first := CodeToName(keyCode);
      ghost var afterFirst := codeToNameCache;
      second := CodeToName(keyCode);
      assert codeToNameCache == afterFirst;
    }

    /**
     * `getFuncOrIcon` over the current registry; FuncOrIcon states when it
     * answers and with what.
     */
    function GetFuncOrIcon(id: InstanceId, keyName: KeyName): (r: Option<Binding>)
      reads this
      ensures r == FuncOrIcon(keyBindingMap, id, keyName)
    {
      FuncOrIcon(keyBindingMap, id, keyName)
    }

    /** `registerKeyAction`: ignores unknown key names; otherwise ensures `id` has a map and stores a truthy binding. */
    method RegisterKeyAction(id: InstanceId, keyName: KeyName, funcOrIcon: Binding)
      requires Valid()
      modifies this`keyBindingMap
      ensures keyBindingMap == Register(old(keyBindingMap), id, keyName, funcOrIcon)
      ensures Valid()
      ensures NameToCode(keyName).Some? && id != "" && Truthy(funcOrIcon) ==> GetFuncOrIcon(id, keyName) == Some(funcOrIcon)
      ensures !(NameToCode(keyName).Some? && id != "" && Truthy(funcOrIcon)) ==>
        GetFuncOrIcon(id, keyName) == old(GetFuncOrIcon(id, keyName))
      ensures forall k :: k != keyName ==> GetFuncOrIcon(id, k) == old(GetFuncOrIcon(id, k))
    {
      RegisterLookup(keyBindingMap, id, keyName, funcOrIcon);
      if NameToCode(keyName).None? {
        return;
      }
      if id !in keyBindingMap {
        keyBindingMap := keyBindingMap[id := map[]];
      }
      if id != "" && keyName != "" && Truthy(funcOrIcon) {
        keyBindingMap := keyBindingMap[id := keyBindingMap[id][keyName := funcOrIcon]];
      }
    }

    /** `unregisterInstance`: drops every binding of `id`. */
    method UnregisterInstance(id: InstanceId)
      requires Valid()
      modifies this`keyBindingMap
      ensures keyBindingMap == Unregister(old(keyBindingMap), id)
      ensures Valid()
      ensures forall k :: GetFuncOrIcon(id, k).None?
    {
      if id in keyBindingMap {
        keyBindingMap := keyBindingMap - {id};
      }
    }
  }
}
