/**
 * The charmap registry: a map from lowercase charmap name to table, filled
 * on first use, and the case-insensitive accessor that reads it.  The
 * registry is a single process-wide map in the program; here it is the
 * one field of a class, so that filling it is a state change with a frame.
 */
module FontCharmaps {
  import opened Wrappers
  import opened Charmap
  import opened CharmapTables
  import opened CaseFold

  /**
   * Which of the seven static tables a registry entry points at.  The
   * program stores a pointer to the table; the model stores the table's
   * identity and reads its contents through TableOf.
   */
  datatype TableId = Ascii | BasicJapanese | Iso8859_1 | Cp1252 | Iso8859_2 | KoreanJamo | Numbers

  /** The contents of the table an entry points at; each is a well-formed array. */
  function TableOf(id: TableId): (t: Table)
    ensures WellFormed(t)
  {
    TablesWellFormed();
    match id
    case Ascii => MapAscii
    case BasicJapanese => MapBasicJapanese
    case Iso8859_1 => MapIso8859_1
    case Cp1252 => MapCp1252
    case Iso8859_2 => MapIso8859_2
    case KoreanJamo => MapKoreanJamo
    case Numbers => MapNumbers
  }

  /** The registry once it has been filled. */
  const Builtin: map<string, TableId> := map[
    "ascii" := Ascii,
    "basic-japanese" := BasicJapanese,
    "iso-8859-1" := Iso8859_1,
    "cp1252" := Cp1252,
    "iso-8859-2" := Iso8859_2,
    "korean-jamo" := KoreanJamo,
    "numbers" := Numbers
  ]

  /** The registered names. */
  const Names: set<string> := Builtin.Keys

  /**
   * The accessor's lookup on a given registry: fold the requested name to
   * lower case, then look it up exactly.  None stands for the NULL result.
   */
  function Find(charmaps: map<string, TableId>, name: string): (r: Option<TableId>)
    ensures r.Some? ==> exists k :: k in charmaps && EqualIgnoringCase(name, k) && r == Some(charmaps[k])
  {
    var key := Lower(name);
    if key in charmaps then
      EqualIgnoringCaseToLower(name);
      Some(charmaps[key])
    else
      None
  }

  /** The registry, empty until it is first asked for a table. */
  class Registry {
    var charmaps: map<string, TableId>

    /** The registry is either still empty or holds exactly the seven tables. */
    ghost predicate Valid()
      reads this
    {
      charmaps == map[] || charmaps == Builtin
    }

    constructor()
      ensures charmaps == map[]
      ensures Valid()
    {
      charmaps := map[];
    }

    /** Fills the registry unless it has already been filled. */
    method Init()
      modifies this
      ensures old(charmaps) != map[] ==> charmaps == old(charmaps)
      ensures old(charmaps) == map[] ==> charmaps == Builtin
      ensures old(Valid()) ==> charmaps == Builtin
    {
      if charmaps != map[] {
        return;
      }
      charmaps := charmaps["ascii" := Ascii];
      charmaps := charmaps["basic-japanese" := BasicJapanese];
      charmaps := charmaps["iso-8859-1" := Iso8859_1];
      charmaps := charmaps["cp1252" := Cp1252];
      charmaps := charmaps["iso-8859-2" := Iso8859_2];
      charmaps := charmaps["korean-jamo" := KoreanJamo];
      charmaps := charmaps["numbers" := Numbers];
    }

    /** Fills the registry if need be, then looks the name up ignoring case. */
    method GetCharMap(name: string) returns (r: Option<TableId>)
      modifies this
      ensures old(charmaps) != map[] ==> charmaps == old(charmaps)
      ensures old(charmaps) == map[] ==> charmaps == Builtin
      ensures r == Find(charmaps, name)
      ensures old(Valid()) ==> charmaps == Builtin && r == Find(Builtin, name)
    {
      Init();
      var key := Lower(name);
      if key !in charmaps {
        return None;
      }
      return Some(charmaps[key]);
    }
  }

  /** Filling the registry a second time changes nothing. */
  method InitTwice(reg: Registry)
    modifies reg
    ensures old(reg.charmaps) == map[] ==> reg.charmaps == Builtin
    ensures old(reg.charmaps) != map[] ==> reg.charmaps == old(reg.charmaps)
  {
    reg.Init();
    ghost var afterFirst := reg.charmaps;
    reg.Init();
    assert old(reg.charmaps) == map[] ==> "ascii" in afterFirst;
  }

  /** Asking twice for the same name, in any casing, gives the same answer both times. */
  method LookupTwice(reg: Registry, first: string, second: string) returns (a: Option<TableId>, b: Option<TableId>)
    modifies reg
    requires reg.Valid()
    requires EqualIgnoringCase(first, second)
    ensures reg.charmaps == Builtin
    ensures a == b == Find(Builtin, first)
  {
    a := reg.GetCharMap(first);
    b := reg.GetCharMap(second);
    FindIgnoresCase(Builtin, first, second);
  }

  /** The registered keys are exactly the seven names. */
  lemma BuiltinKeys()
    ensures Names == {"ascii", "basic-japanese", "iso-8859-1", "cp1252", "iso-8859-2", "korean-jamo", "numbers"}
    ensures |Names| == 7
  {
  }

  /** No two names share a table: each name is bound to a table of its own. */
  lemma BuiltinInjective()
    ensures forall k1, k2 :: k1 in Builtin && k2 in Builtin && k1 != k2 ==> Builtin[k1] != Builtin[k2]
  {
  }

  /** No registered name holds a capital letter, so each is its own fold. */
  lemma NamesAreLowercase()
    ensures forall k :: k in Names ==> NoUpper(k)
  {
  }

  /** Names equal up to case find the same table, and the lookup depends only on the folded name. */
  lemma FindIgnoresCase(charmaps: map<string, TableId>, a: string, b: string)
    requires EqualIgnoringCase(a, b)
    ensures Find(charmaps, a) == Find(charmaps, b)
    ensures Find(charmaps, a) == Find(charmaps, Lower(a))
  {
    LowerEqualIff(a, b);
    LowerIdempotent(a);
  }

  /**
   * The filled registry finds a table exactly for the names equal up to
   * case to a registered name, and then it finds that name's table; every
   * other name, including prefixes and extensions of registered names,
   * gives None.
   */
  lemma FindBuiltin(name: string)
    ensures Find(Builtin, name).Some? <==> exists k :: k in Names && EqualIgnoringCase(name, k)
    ensures forall k :: k in Names && EqualIgnoringCase(name, k) ==> Find(Builtin, name) == Some(Builtin[k])
  {
    BuiltinKeys();
    NamesAreLowercase();
    forall k | k in Names
      ensures EqualIgnoringCase(name, k) <==> Lower(name) == k
    {
      LowerFixesNoUpper(k);
      LowerEqualIff(name, k);
    }
    if Find(Builtin, name).Some? {
      var k := Lower(name);
      assert k in Names && EqualIgnoringCase(name, k);
    }
  }

  /** A name equal up to case to the registered name k finds k's table. */
  lemma FindRegistered(name: string, k: string)
    requires k in Names && EqualIgnoringCase(name, k)
    ensures Find(Builtin, name) == Some(Builtin[k])
  {
    FindBuiltin(name);
  }

  /** A name equal up to case to no registered name finds nothing. */
  lemma FindUnregistered(name: string)
    requires forall k :: k in Names ==> !EqualIgnoringCase(name, k)
    ensures Find(Builtin, name) == None
  {
    FindBuiltin(name);
  }

  /** Any casing of "ascii" finds the ASCII table. */
  lemma FindExamplesFound()
    ensures Find(Builtin, "ASCII") == Find(Builtin, "ascii") == Find(Builtin, "AsCiI") == Some(Ascii)
  {
    FindRegistered("ASCII", "ascii");
    FindRegistered("ascii", "ascii");
    FindRegistered("AsCiI", "ascii");
  }

  /** A prefix, an alias and the empty name find nothing. */
  lemma FindExamplesMissing()
    ensures Find(Builtin, "asci") == None
    ensures Find(Builtin, "latin1") == None
    ensures Find(Builtin, "") == None
  {
    FindUnregistered("asci");
    FindUnregistered("latin1");
    FindUnregistered("");
  }

  /**
   * Only the ASCII capitals are folded: a name spelled with a non-ASCII
   * letter that a Unicode fold would send to an ASCII one (here U+212A
   * KELVIN SIGN for 'k') finds nothing.
   */
  lemma FindNonAsciiLetterMissing()
    ensures Find(Builtin, "\U{212A}orean-jamo") == None
  {
    var name := "\U{212A}orean-jamo";
    BuiltinKeys();
    assert !SameIgnoringCase(name[0], "korean-jamo"[0]);
    FindUnregistered(name);
  }
}
