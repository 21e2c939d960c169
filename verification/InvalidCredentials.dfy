/** replaceInvalidCredentials: nested loops over a workflow's nodes with two caches, compared with a
  * separate database lookup for every credential. */
module InvalidCredentials {
  import opened Wrappers

  /** A row of the credentials table. */
  datatype Row = Row(id: string, name: string, credentialType: string)

  /** A node's reference to a credential: none, the old style with a bare name, or id and name. An id that
    * is None is the program's `null`. */
  datatype Credential = Missing | Name(text: string) | Details(id: Option<string>, name: string)

  datatype Entry = Entry(credentialType: string, credential: Credential)

  /** A node; a node without credentials has no entries. */
  datatype Node = Node(disabled: bool, credentials: seq<Entry>)

  // ---------------------------------------------------------------- the database

  function FindBy(db: seq<Row>, name: string, credentialType: string): seq<Row> {
    if db == [] then []
    else (if db[0].name == name && db[0].credentialType == credentialType then [db[0]] else [])
         + FindBy(db[1..], name, credentialType)
  }

  function FindOneBy(db: seq<Row>, id: string, credentialType: string): Option<Row> {
    if db == [] then None
    else if db[0].id == id && db[0].credentialType == credentialType then Some(db[0])
    else FindOneBy(db[1..], id, credentialType)
  }

  function Unique(db: seq<Row>, name: string, credentialType: string): Option<Row> {
    var rows := FindBy(db, name, credentialType);
    if |rows| == 1 then Some(rows[0]) else None
  }

  /** The id column is the primary key. */
  ghost predicate PrimaryKey(db: seq<Row>) {
    forall i, j :: 0 <= i < j < |db| ==> db[i].id != db[j].id
  }

  // ---------------------------------------------------------------- lookup without caches

  predicate IsLegacy(c: Credential) {
    c.Name? || (c.Details? && c.id.None?)
  }

  function NameOf(c: Credential): string
    requires !c.Missing?
  {
    if c.Name? then c.text else c.name
  }

  function Reference(row: Row): Credential {
    Details(Some(row.id), row.name)
  }

  /** The row a credential refers to, looked up on its own. */
  function Lookup(db: seq<Row>, e: Entry): Option<Row> {
    if e.credential.Missing? then None
    else if IsLegacy(e.credential) then Unique(db, NameOf(e.credential), e.credentialType)
    else
      match FindOneBy(db, e.credential.id.value, e.credentialType)
      case Some(row) => Some(row)
      case None => Unique(db, e.credential.name, e.credentialType)
  }

  /** Resolved to its row; or left alone, a legacy one possibly rewritten to the {id: null} form. */
  predicate AgreesWithLookup(db: seq<Row>, e: Entry, result: Credential) {
    match Lookup(db, e)
    case Some(row) => result == Reference(row)
    case None =>
      result == e.credential || (IsLegacy(e.credential) && result == Details(None, NameOf(e.credential)))
  }

  // ---------------------------------------------------------------- what the lookups mean

  predicate Matches(row: Row, name: string, credentialType: string) {
    row.name == name && row.credentialType == credentialType
  }

  /** Row `k` is the only one of this name and type. */
  ghost predicate OnlyRow(db: seq<Row>, k: int, name: string, credentialType: string) {
    && 0 <= k < |db| && db[k].name == name && db[k].credentialType == credentialType
    && forall j :: 0 <= j < |db| && j != k ==> !(db[j].name == name && db[j].credentialType == credentialType)
  }

  ghost predicate RowOfId(db: seq<Row>, k: int, id: string, credentialType: string) {
    0 <= k < |db| && db[k].id == id && db[k].credentialType == credentialType
  }

  lemma {:induction false} FindByNone(db: seq<Row>, name: string, t: string)
    ensures FindBy(db, name, t) == [] <==> forall j :: 0 <= j < |db| ==> !Matches(db[j], name, t)
    decreases |db|
  {
    if db != [] {
      FindByNone(db[1..], name, t);
      if Matches(db[0], name, t) {
        assert FindBy(db, name, t) != [];
      } else if j :| 0 <= j < |db[1..]| && Matches(db[1..][j], name, t) {
        assert Matches(db[j + 1], name, t);
      } else {
        forall j | 0 <= j < |db| ensures !Matches(db[j], name, t) {
          assert j > 0 ==> !Matches(db[1..][j - 1], name, t);
        }
      }
    }
  }

  lemma {:induction false} FindByOne(db: seq<Row>, name: string, t: string) returns (k: nat)
    ensures |FindBy(db, name, t)| == 1 ==> OnlyRow(db, k, name, t) && FindBy(db, name, t) == [db[k]]
    decreases |db|
  {
    k := 0;
    if |FindBy(db, name, t)| == 1 {
      var rest := db[1..];
      if Matches(db[0], name, t) {
        FindByNone(rest, name, t);
        forall j | 0 < j < |db| ensures !Matches(db[j], name, t) {
          assert !Matches(rest[j - 1], name, t);
        }
      } else {
        var i := FindByOne(rest, name, t);
        k := i + 1;
        forall j | 0 <= j < |db| && j != k ensures !Matches(db[j], name, t) {
          assert j > 0 ==> db[j] == rest[j - 1];
        }
      }
    }
  }

  lemma {:induction false} FindByOnly(db: seq<Row>, name: string, t: string, k: nat)
    requires OnlyRow(db, k, name, t)
    ensures FindBy(db, name, t) == [db[k]]
    decreases |db|
  {
    var rest := db[1..];
    if k == 0 {
      FindByNone(rest, name, t);
      forall j | 0 <= j < |rest| ensures !Matches(rest[j], name, t) {
        assert rest[j] == db[j + 1];
      }
    } else {
      assert rest[k - 1] == db[k];
      forall j | 0 <= j < |rest| && j != k - 1 ensures !Matches(rest[j], name, t) {
        assert rest[j] == db[j + 1];
      }
      FindByOnly(rest, name, t, k - 1);
    }
  }

  /** A name resolves to a row exactly if that is the only one of the name and type. */
  lemma UniqueMeans(db: seq<Row>, name: string, t: string)
    ensures forall k :: OnlyRow(db, k, name, t) ==> Unique(db, name, t) == Some(db[k])
    ensures (forall k :: !OnlyRow(db, k, name, t)) ==> Unique(db, name, t) == None
  {
    forall k | OnlyRow(db, k, name, t) ensures Unique(db, name, t) == Some(db[k]) {
      FindByOnly(db, name, t, k);
    }
    var k := FindByOne(db, name, t);
  }

  lemma {:induction false} FindOneByNone(db: seq<Row>, id: string, t: string)
    ensures FindOneBy(db, id, t).None? <==> forall k :: !RowOfId(db, k, id, t)
    decreases |db|
  {
    if db == [] {
    } else if db[0].id == id && db[0].credentialType == t {
      assert RowOfId(db, 0, id, t);
    } else {
      FindOneByNone(db[1..], id, t);
      if k :| RowOfId(db, k, id, t) {
        assert RowOfId(db[1..], k - 1, id, t);
      } else if k :| RowOfId(db[1..], k, id, t) {
        assert RowOfId(db, k + 1, id, t);
      }
    }
  }

  lemma FindOneByMeans(db: seq<Row>, id: string, t: string)
    requires PrimaryKey(db)
    ensures forall k :: RowOfId(db, k, id, t) ==> FindOneBy(db, id, t) == Some(db[k])
    ensures (forall k :: !RowOfId(db, k, id, t)) ==> FindOneBy(db, id, t) == None
  {
    FindOneByNone(db, id, t);
    forall k | RowOfId(db, k, id, t) ensures FindOneBy(db, id, t) == Some(db[k]) {
      FoundById(db, db[k]);
    }
  }

  /** The separate lookup finds the row of the id and type, and failing that, or without an id, the only row of
    * the name and type; it finds nothing if there is neither. */
  lemma LookupMeans(db: seq<Row>, e: Entry)
    requires PrimaryKey(db) && !e.credential.Missing?
    ensures var t, name := e.credentialType, if e.credential.Name? then e.credential.text else e.credential.name;
            var byId := e.credential.Details? && e.credential.id.Some?;
            && (byId ==> forall k :: RowOfId(db, k, e.credential.id.value, t) ==> Lookup(db, e) == Some(db[k]))
            && ((byId ==> forall k :: !RowOfId(db, k, e.credential.id.value, t)) ==>
                  && (forall k :: OnlyRow(db, k, name, t) ==> Lookup(db, e) == Some(db[k]))
                  && ((forall k :: !OnlyRow(db, k, name, t)) ==> Lookup(db, e) == None))
  {
    UniqueMeans(db, NameOf(e.credential), e.credentialType);
    if e.credential.Details? && e.credential.id.Some? {
      FindOneByMeans(db, e.credential.id.value, e.credentialType);
    }
  }

  // ---------------------------------------------------------------- what a reference becomes

  ghost predicate OldReference(e: Entry, credentialType: string, name: string) {
    e.credentialType == credentialType && (e.credential == Name(name) || e.credential == Details(None, name))
  }

  /** A reference by name becomes the only row of its name and type; if there is no such row, it keeps its value
    * when it is the first to this name, and gets the {id: null} form when it is a later one. */
  ghost predicate NameReplaced(db: seq<Row>, seen: seq<Entry>, e: Entry, name: string, result: Credential) {
    && (forall k :: OnlyRow(db, k, name, e.credentialType) ==> result == Details(Some(db[k].id), db[k].name))
    && ((forall k :: !OnlyRow(db, k, name, e.credentialType)) ==>
          result == if exists i :: 0 <= i < |seen| && OldReference(seen[i], e.credentialType, name)
                    then Details(None, name) else e.credential)
  }

  /** A reference to an id that nothing could resolve: neither a row of the id nor an only row of the name. */
  ghost predicate Hopeless(db: seq<Row>, e: Entry, credentialType: string, id: string) {
    && e.credentialType == credentialType && e.credential.Details? && e.credential.id == Some(id)
    && (forall k :: !RowOfId(db, k, id, credentialType))
    && (forall k :: !OnlyRow(db, k, e.credential.name, credentialType))
  }

  ghost predicate FirstHopeless(db: seq<Row>, seen: seq<Entry>, i: int, credentialType: string, id: string) {
    && 0 <= i < |seen| && Hopeless(db, seen[i], credentialType, id)
    && forall j :: 0 <= j < i ==> !Hopeless(db, seen[j], credentialType, id)
  }

  /** A reference with an id becomes the row of its id and type. If there is none: the first hopeless reference
    * to the id that was seen before, as it stands; or the only row of its name and type; or it keeps its
    * value. */
  ghost predicate IdReplaced(db: seq<Row>, seen: seq<Entry>, e: Entry, id: string, result: Credential)
    requires e.credential.Details?
  {
    && (forall k :: RowOfId(db, k, id, e.credentialType) ==> result == Details(Some(id), db[k].name))
    && ((forall k :: !RowOfId(db, k, id, e.credentialType)) ==>
          && (forall i :: FirstHopeless(db, seen, i, e.credentialType, id) ==> result == seen[i].credential)
          && ((forall i :: 0 <= i < |seen| ==> !Hopeless(db, seen[i], e.credentialType, id)) ==>
                && (forall k :: OnlyRow(db, k, e.credential.name, e.credentialType) ==>
                      result == Details(Some(db[k].id), db[k].name))
                && ((forall k :: !OnlyRow(db, k, e.credential.name, e.credentialType)) ==>
                      result == e.credential)))
  }

  /** What becomes of an entry after the entries in `seen`. */
  ghost predicate EntryReplaced(db: seq<Row>, seen: seq<Entry>, e: Entry, result: Credential) {
    match e.credential
    case Missing => result == Missing
    case Name(name) => NameReplaced(db, seen, e, name, result)
    case Details(None, name) => NameReplaced(db, seen, e, name, result)
    case Details(Some(id), _) => IdReplaced(db, seen, e, id, result)
  }

  lemma OldIsLegacy(seen: seq<Entry>, t: string, name: string)
    ensures SeenLegacy(seen, t, name) <==> exists i :: 0 <= i < |seen| && OldReference(seen[i], t, name)
  {
    if SeenLegacy(seen, t, name) {
      var i :| 0 <= i < |seen| && SameLegacy(seen[i], t, name);
      assert OldReference(seen[i], t, name);
    }
    if i :| 0 <= i < |seen| && OldReference(seen[i], t, name) {
      assert SameLegacy(seen[i], t, name);
    }
  }

  lemma HopelessMeans(db: seq<Row>, e: Entry, t: string, id: string)
    requires PrimaryKey(db)
    ensures Hopeless(db, e, t, id) <==> Unresolved(db, e, t, id)
  {
    if HasId(e, t, id) {
      FindOneByMeans(db, id, t);
      UniqueMeans(db, e.credential.name, t);
    }
  }

  lemma OutcomeByName(db: seq<Row>, seen: seq<Entry>, e: Entry)
    requires IsLegacy(e.credential)
    ensures NameReplaced(db, seen, e, NameOf(e.credential), Outcome(db, seen, e))
  {
    UniqueMeans(db, NameOf(e.credential), e.credentialType);
    OldIsLegacy(seen, e.credentialType, NameOf(e.credential));
  }

  lemma OutcomeById(db: seq<Row>, seen: seq<Entry>, e: Entry)
    requires PrimaryKey(db) && e.credential.Details? && e.credential.id.Some?
    ensures IdReplaced(db, seen, e, e.credential.id.value, Outcome(db, seen, e))
  {
    var t, id := e.credentialType, e.credential.id.value;
    FindOneByMeans(db, id, t);
    UniqueMeans(db, e.credential.name, t);
    forall i | 0 <= i < |seen| ensures Hopeless(db, seen[i], t, id) <==> Unresolved(db, seen[i], t, id) {
      HopelessMeans(db, seen[i], t, id);
    }
    var first := FirstUnresolvedIs(db, seen, t, id);
  }

  lemma OutcomeMeans(db: seq<Row>, seen: seq<Entry>, e: Entry)
    requires PrimaryKey(db)
    ensures EntryReplaced(db, seen, e, Outcome(db, seen, e))
  {
    if e.credential.Missing? {
    } else if IsLegacy(e.credential) {
      OutcomeByName(db, seen, e);
    } else {
      OutcomeById(db, seen, e);
    }
  }

  // ---------------------------------------------------------------- what the caches make of it

  predicate SameLegacy(e: Entry, credentialType: string, name: string) {
    IsLegacy(e.credential) && e.credentialType == credentialType && NameOf(e.credential) == name
  }

  /** The visited entries hold a legacy reference to this name. */
  predicate SeenLegacy(seen: seq<Entry>, credentialType: string, name: string) {
    exists i :: 0 <= i < |seen| && SameLegacy(seen[i], credentialType, name)
  }

  predicate HasId(e: Entry, credentialType: string, id: string) {
    e.credentialType == credentialType && e.credential.Details? && e.credential.id == Some(id)
  }

  predicate Unresolved(db: seq<Row>, e: Entry, credentialType: string, id: string) {
    HasId(e, credentialType, id) && FindOneBy(db, id, credentialType).None?
      && Unique(db, e.credential.name, credentialType).None?
  }

  /** The first visited reference to this id that neither its id nor its name could resolve. */
  function FirstUnresolved(db: seq<Row>, seen: seq<Entry>, credentialType: string, id: string): Option<Credential> {
    if seen == [] then None
    else if Unresolved(db, seen[0], credentialType, id) then Some(seen[0].credential)
    else FirstUnresolved(db, seen[1..], credentialType, id)
  }

  /** The new value of an entry after the entries in `seen`. */
  function Outcome(db: seq<Row>, seen: seq<Entry>, e: Entry): Credential {
    if e.credential.Missing? then e.credential
    else if IsLegacy(e.credential) then
      match Lookup(db, e)
      case Some(row) => Reference(row)
      case None =>
        if SeenLegacy(seen, e.credentialType, NameOf(e.credential)) then Details(None, NameOf(e.credential))
          else e.credential
    else if FindOneBy(db, e.credential.id.value, e.credentialType).Some? then
      Reference(FindOneBy(db, e.credential.id.value, e.credentialType).value)
    else
      match FirstUnresolved(db, seen, e.credentialType, e.credential.id.value)
      case Some(c) => c
      case None =>
        match Unique(db, e.credential.name, e.credentialType)
        case Some(row) => Reference(row)
        case None => e.credential
  }

  /** The entries of a node, each after the ones before it. */
  function Outcomes(db: seq<Row>, seen: seq<Entry>, es: seq<Entry>): seq<Entry> {
    seq(|es|, j requires 0 <= j < |es| => es[j].(credential := Outcome(db, seen + es[..j], es[j])))
  }

  /** The entries the loops visit, in order. */
  function Visited(nodes: seq<Node>): seq<Entry> {
    if nodes == [] then [] else Visited(nodes[..|nodes| - 1]) + Entries(nodes[|nodes| - 1])
  }

  function Entries(n: Node): seq<Entry> {
    if n.disabled then [] else n.credentials
  }

  function NodeOutcome(db: seq<Row>, seen: seq<Entry>, n: Node): Node {
    if n.disabled then n else n.(credentials := Outcomes(db, seen, n.credentials))
  }

  // ---------------------------------------------------------------- cache contents

  type ByName = map<(string, string), Credential>
  type ById = map<(string, string), Credential>

  ghost predicate NamesCached(db: seq<Row>, seen: seq<Entry>, byName: ByName) {
    && (forall t, n :: (t, n) in byName <==> SeenLegacy(seen, t, n))
    && (forall t, n :: (t, n) in byName ==>
          byName[(t, n)] == match Unique(db, n, t) case Some(row) => Reference(row) case None => Details(None, n))
  }

  ghost predicate IdsCached(db: seq<Row>, seen: seq<Entry>, byId: ById) {
    && (forall t, id :: (t, id) in byId && FindOneBy(db, id, t).Some? ==>
      byId[(t, id)] == Reference(FindOneBy(db, id, t).value))
    && (forall t, id :: FindOneBy(db, id, t).None? ==>
          ((t, id) in byId <==> FirstUnresolved(db, seen, t, id).Some?)
          && ((t, id) in byId ==> FirstUnresolved(db, seen, t, id) == Some(byId[(t, id)])))
  }

  lemma {:induction false} FirstUnresolvedAppend(db: seq<Row>, seen: seq<Entry>, e: Entry, t: string, id: string)
    ensures FirstUnresolved(db, seen + [e], t, id) ==
            match FirstUnresolved(db, seen, t, id)
            case Some(c) => Some(c)
            case None => if Unresolved(db, e, t, id) then Some(e.credential) else None
    decreases |seen|
  {
    if seen == [] {
      assert seen + [e] == [e];
    } else {
      assert (seen + [e])[1..] == seen[1..] + [e];
      FirstUnresolvedAppend(db, seen[1..], e, t, id);
    }
  }

  lemma SeenLegacyAppend(seen: seq<Entry>, e: Entry, t: string, n: string)
    ensures SeenLegacy(seen + [e], t, n) <==> SeenLegacy(seen, t, n) || SameLegacy(e, t, n)
  {
    if SeenLegacy(seen, t, n) {
      var i :| 0 <= i < |seen| && SameLegacy(seen[i], t, n);
      assert SameLegacy((seen + [e])[i], t, n);
    }
    if SameLegacy(e, t, n) {
      assert SameLegacy((seen + [e])[|seen|], t, n);
    }
  }

  lemma {:induction false} FoundByName(db: seq<Row>, name: string, t: string)
    ensures forall row :: row in FindBy(db, name, t) ==> row in db && row.name == name && row.credentialType == t
    decreases |db|
  {
    if db != [] {
      FoundByName(db[1..], name, t);
    }
  }

  lemma {:induction false} FoundById(db: seq<Row>, row: Row)
    requires PrimaryKey(db) && row in db
    ensures FindOneBy(db, row.id, row.credentialType) == Some(row)
    decreases |db|
  {
    var k :| 0 <= k < |db| && db[k] == row;
    if k > 0 {
      assert db[1..][k - 1] == row;
      FoundById(db[1..], row);
    }
  }

  // ---------------------------------------------------------------- the loops

  /** One credential of an enabled node, after the entries in `seen`. `asked` is 1 when a legacy lookup by
    * name went to the database. */
  method ReplaceOne(db: seq<Row>, e: Entry, ghost seen: seq<Entry>, names: ByName, ids: ById)
    returns (result: Credential, byName: ByName, byId: ById, asked: nat)
    requires PrimaryKey(db) && NamesCached(db, seen, names) && IdsCached(db, seen, ids)
    ensures EntryReplaced(db, seen, e, result)
    ensures result == Outcome(db, seen, e)
    ensures NamesCached(db, seen + [e], byName) && IdsCached(db, seen + [e], byId)
    ensures asked ==
            if IsLegacy(e.credential) && !SeenLegacy(seen, e.credentialType, NameOf(e.credential)) then 1 else 0
  {
    result, byName, byId, asked := e.credential, names, ids, 0;
    OutcomeMeans(db, seen, e);
    forall t, n ensures SeenLegacy(seen + [e], t, n) <==> SeenLegacy(seen, t, n) || SameLegacy(e, t, n) {
      SeenLegacyAppend(seen, e, t, n);
    }
    IdsKept(db, seen, e, ids);
    var credentialType := e.credentialType;
    if e.credential.Missing? {
      return;
    }
    if IsLegacy(e.credential) {
      var name := NameOf(e.credential);
      if (credentialType, name) !in byName {
        var credentials := FindBy(db, name, credentialType);
        asked := 1;
        if |credentials| == 1 {
          byName := byName[(credentialType, name) := Reference(credentials[0])];
          result := Reference(credentials[0]);
          return;
        }
        byName := byName[(credentialType, name) := Details(None, name)];
      } else {
        result := byName[(credentialType, name)];
      }
      return;
    }
    result, byId := ReplaceById(db, e, seen, ids);
  }

  /** An entry that is not an unresolved reference leaves the id cache as it should be. */
  lemma IdsKept(db: seq<Row>, seen: seq<Entry>, e: Entry, ids: ById)
    requires IdsCached(db, seen, ids)
    ensures e.credential.Missing? || IsLegacy(e.credential) ==> IdsCached(db, seen + [e], ids)
  {
    forall t, id { FirstUnresolvedAppend(db, seen, e, t, id); }
  }

  method ReplaceById(db: seq<Row>, e: Entry, ghost seen: seq<Entry>, ids: ById) returns (result: Credential, byId: ById)
    requires PrimaryKey(db) && IdsCached(db, seen, ids)
    requires e.credential.Details? && e.credential.id.Some?
    ensures IdReplaced(db, seen, e, e.credential.id.value, result)
    ensures result == Outcome(db, seen, e)
    ensures IdsCached(db, seen + [e], byId)
  {
    result, byId := e.credential, ids;
    OutcomeById(db, seen, e);
    forall t, id ensures FirstUnresolved(db, seen + [e], t, id) ==
                         match FirstUnresolved(db, seen, t, id)
                         case Some(c) => Some(c)
                         case None => if Unresolved(db, e, t, id) then Some(e.credential) else None
    {
      FirstUnresolvedAppend(db, seen, e, t, id);
    }
    var credentialType, id := e.credentialType, e.credential.id.value;
    if (credentialType, id) !in byId {
      var credentials := FindOneBy(db, id, credentialType);
      if credentials.Some? {
        byId := byId[(credentialType, id) := Reference(credentials.value)];
        result := byId[(credentialType, id)];
        FoundIdMatches(db, id, credentialType);
        return;
      }
      var credsByName := FindBy(db, e.credential.name, credentialType);
      if |credsByName| == 1 {
        FoundByName(db, e.credential.name, credentialType);
        assert credsByName[0] in FindBy(db, e.credential.name, credentialType);
        FoundById(db, credsByName[0]);
        byId := byId[(credentialType, credsByName[0].id) := Reference(credsByName[0])];
        result := byId[(credentialType, credsByName[0].id)];
        return;
      }
      byId := byId[(credentialType, id) := e.credential];
      return;
    }
    result := byId[(credentialType, id)];
  }

  lemma {:induction false} FoundIdMatches(db: seq<Row>, id: string, t: string)
    ensures FindOneBy(db, id, t).Some? ==>
            FindOneBy(db, id, t).value.id == id && FindOneBy(db, id, t).value.credentialType == t
    decreases |db|
  {
    if db != [] {
      FoundIdMatches(db[1..], id, t);
    }
  }

  /** The legacy names asked of the database so far: each once, and one for each legacy reference seen. */
  ghost predicate AskedOnce(seen: seq<Entry>, asked: seq<(string, string)>) {
    && (forall i, j :: 0 <= i < j < |asked| ==> asked[i] != asked[j])
    && (forall t, n :: (t, n) in asked <==> SeenLegacy(seen, t, n))
  }

  method ReplaceNode(db: seq<Row>, node: Node, ghost seen: seq<Entry>, names: ByName, ids: ById,
        queries: seq<(string, string)>)
    returns (result: Node, byName: ByName, byId: ById, asked: seq<(string, string)>)
    requires PrimaryKey(db) && CachesRight(db, seen, names, ids, queries)
    ensures result == NodeOutcome(db, seen, node)
    ensures CachesRight(db, seen + Entries(node), byName, byId, asked)
  {
    result, byName, byId, asked := node, names, ids, queries;
    if node.disabled {
      assert seen + Entries(node) == seen;
      return;
    }
    var allNodeCredentials := node.credentials;
    var credentials := allNodeCredentials;
    assert seen + allNodeCredentials[..0] == seen;
    for i := 0 to |allNodeCredentials|
      invariant |credentials| == |allNodeCredentials|
      invariant credentials[..i] == Outcomes(db, seen, allNodeCredentials)[..i]
      invariant credentials[i..] == allNodeCredentials[i..]
      invariant NamesCached(db, seen + allNodeCredentials[..i], byName)
      invariant IdsCached(db, seen + allNodeCredentials[..i], byId)
      invariant AskedOnce(seen + allNodeCredentials[..i], asked)
    {
      var e := allNodeCredentials[i];
      ghost var before := seen + allNodeCredentials[..i];
      var value, ask;
      value, byName, byId, ask := ReplaceOne(db, e, before, byName, byId);
      if ask == 1 {
        AskOne(before, e, asked);
        asked := asked + [(e.credentialType, NameOf(e.credential))];
      } else {
        AskNone(before, e, asked);
      }
      assert seen + allNodeCredentials[..i + 1] == before + [e];
      credentials := credentials[i := e.(credential := value)];
    }
    assert credentials == Outcomes(db, seen, allNodeCredentials);
    assert allNodeCredentials[..|allNodeCredentials|] == allNodeCredentials;
    result := node.(credentials := credentials);
  }

  lemma AskOne(seen: seq<Entry>, e: Entry, asked: seq<(string, string)>)
    requires AskedOnce(seen, asked) && IsLegacy(e.credential)
             && !SeenLegacy(seen, e.credentialType, NameOf(e.credential))
    ensures AskedOnce(seen + [e], asked + [(e.credentialType, NameOf(e.credential))])
  {
    forall t, n { SeenLegacyAppend(seen, e, t, n); }
    var pair := (e.credentialType, NameOf(e.credential));
    assert pair !in asked;
    var all := asked + [pair];
    forall t, n ensures (t, n) in all <==> SeenLegacy(seen + [e], t, n) {
      assert (t, n) in all <==> (t, n) in asked || (t, n) == pair;
    }
  }

  lemma AskNone(seen: seq<Entry>, e: Entry, asked: seq<(string, string)>)
    requires AskedOnce(seen, asked)
    requires !(IsLegacy(e.credential) && !SeenLegacy(seen, e.credentialType, NameOf(e.credential)))
    ensures AskedOnce(seen + [e], asked)
  {
    forall t, n { SeenLegacyAppend(seen, e, t, n); }
  }

  /** Both caches and the query list are right after the entries in `seen`. */
  ghost predicate CachesRight(db: seq<Row>, seen: seq<Entry>, byName: ByName, byId: ById,
                                asked: seq<(string, string)>)
  {
    NamesCached(db, seen, byName) && IdsCached(db, seen, byId) && AskedOnce(seen, asked)
  }

  lemma NoCaches(db: seq<Row>)
    ensures CachesRight(db, [], map[], map[], [])
  {
  }

  lemma VisitedNext(nodes: seq<Node>, i: nat)
    requires i < |nodes|
    ensures Visited(nodes[..i + 1]) == Visited(nodes[..i]) + Entries(nodes[i])
  {
    assert nodes[..i + 1][..i] == nodes[..i];
  }

  ghost function NodeOutcomes(db: seq<Row>, nodes: seq<Node>): (r: seq<Node>)
    ensures |r| == |nodes|
  {
    if nodes == [] then []
    else
      var before := nodes[..|nodes| - 1];
      NodeOutcomes(db, before) + [NodeOutcome(db, Visited(before), nodes[|nodes| - 1])]
  }

  lemma {:induction false} NodeOutcomesAt(db: seq<Row>, nodes: seq<Node>, k: nat)
    requires k < |nodes|
    ensures NodeOutcomes(db, nodes)[k] == NodeOutcome(db, Visited(nodes[..k]), nodes[k])
    decreases |nodes|
  {
    if k < |nodes| - 1 {
      NodeOutcomesAt(db, nodes[..|nodes| - 1], k);
      assert nodes[..|nodes| - 1][..k] == nodes[..k];
    }
  }

  /** The first `i` nodes are rewritten, the others are as they were, and the caches know the first `i`. */
  ghost predicate Progress(db: seq<Row>, was: seq<Node>, i: nat, now: seq<Node>, byName: ByName, byId: ById,
        asked: seq<(string, string)>)
    requires i <= |was|
  {
    now == NodeOutcomes(db, was[..i]) + was[i..] && CachesRight(db, Visited(was[..i]), byName, byId, asked)
  }

  method ReplaceNodeAt(db: seq<Row>, nodes: array<Node>, i: nat, ghost was: seq<Node>,
                       names: ByName, ids: ById, queries: seq<(string, string)>)
    returns (byName: ByName, byId: ById, asked: seq<(string, string)>)
    requires PrimaryKey(db) && i < nodes.Length == |was| && Progress(db, was, i, nodes[..], names, ids, queries)
    modifies nodes
    ensures Progress(db, was, i + 1, nodes[..], byName, byId, asked)
  {
    ghost var before := nodes[..];
    assert before[i] == was[i];
    var node;
    node, byName, byId, asked := ReplaceNode(db, nodes[i], Visited(was[..i]), names, ids, queries);
    VisitedNext(was, i);
    nodes[i] := node;
    OneMoreNode(db, was, before, nodes[..], i);
  }

  /** Node `k` is the same if it is disabled; else each of its entries is of the same type and replaced after all
    * entries of enabled nodes before it. */
  ghost predicate NodeReplaced(db: seq<Row>, was: seq<Node>, k: nat, now: Node)
    requires k < |was|
  {
    if was[k].disabled then now == was[k]
    else
      && !now.disabled && |now.credentials| == |was[k].credentials|
      && forall j :: 0 <= j < |now.credentials| ==>
           && now.credentials[j].credentialType == was[k].credentials[j].credentialType
           && EntryReplaced(db, Visited(was[..k]) + was[k].credentials[..j], was[k].credentials[j],
                            now.credentials[j].credential)
  }

  lemma NodeOutcomeMeans(db: seq<Row>, was: seq<Node>, k: nat)
    requires PrimaryKey(db) && k < |was|
    ensures NodeReplaced(db, was, k, NodeOutcomes(db, was)[k])
  {
    NodeOutcomesAt(db, was, k);
    var before := Visited(was[..k]);
    forall j | 0 <= j < |was[k].credentials| {
      OutcomeMeans(db, before + was[k].credentials[..j], was[k].credentials[j]);
    }
  }

  /** Rewrites the nodes in place. `asked` lists the legacy lookups by name that went to the database. */
  method ReplaceInvalidCredentials(db: seq<Row>, nodes: array<Node>) returns (asked: seq<(string, string)>)
    requires PrimaryKey(db)
    modifies nodes
    ensures forall k :: 0 <= k < nodes.Length ==> NodeReplaced(db, old(nodes[..]), k, nodes[k])
    ensures nodes[..] == NodeOutcomes(db, old(nodes[..]))
    ensures AskedOnce(Visited(old(nodes[..])), asked)
  {
    ghost var was := nodes[..];
    var byName: ByName, byId: ById := map[], map[];
    asked := [];
    NoProgress(db, was);
    for i := 0 to nodes.Length
      invariant Progress(db, was, i, nodes[..], byName, byId, asked)
    {
      byName, byId, asked := ReplaceNodeAt(db, nodes, i, was, byName, byId, asked);
    }
    AllProgress(db, was, nodes[..], byName, byId, asked);
    forall k | 0 <= k < nodes.Length ensures NodeReplaced(db, was, k, nodes[k]) {
      NodeOutcomeMeans(db, was, k);
      assert nodes[..][k] == nodes[k];
    }
  }

  lemma NoProgress(db: seq<Row>, was: seq<Node>)
    ensures Progress(db, was, 0, was, map[], map[], [])
  {
    NoCaches(db);
    assert was[..0] == [] && was[0..] == was;
  }

  lemma AllProgress(db: seq<Row>, was: seq<Node>, now: seq<Node>, byName: ByName, byId: ById,
        asked: seq<(string, string)>)
    requires Progress(db, was, |was|, now, byName, byId, asked)
    ensures now == NodeOutcomes(db, was) && AskedOnce(Visited(was), asked)
  {
    assert was[..|was|] == was && was[|was|..] == [];
  }

  lemma OneMoreNode(db: seq<Row>, was: seq<Node>, before: seq<Node>, after: seq<Node>, i: nat)
    requires i < |was| && before == NodeOutcomes(db, was[..i]) + was[i..]
    requires after == before[i := NodeOutcome(db, Visited(was[..i]), was[i])]
    ensures after == NodeOutcomes(db, was[..i + 1]) + was[i + 1..]
  {
    assert was[..i + 1][..i] == was[..i];
  }

  // ---------------------------------------------------------------- agreement with the uncached lookup

  /** Two references to the same id of the same type, the first of which cannot be resolved, have different
    * names. */
  ghost predicate Conflict(db: seq<Row>, es: seq<Entry>, i: nat, j: nat) {
    && i < j < |es| && es[j].credential.Details? && es[j].credential.id.Some?
    && Unresolved(db, es[i], es[j].credentialType, es[j].credential.id.value)
    && es[i].credential.name != es[j].credential.name
  }

  ghost predicate AgreesAt(db: seq<Row>, es: seq<Entry>, k: nat)
    requires k < |es|
  {
    AgreesWithLookup(db, es[k], Outcome(db, es[..k], es[k]))
  }

  lemma {:induction false} FirstUnresolvedIs(db: seq<Row>, seen: seq<Entry>, t: string, id: string) returns (i: nat)
    ensures FirstUnresolved(db, seen, t, id).Some? ==>
              i < |seen| && Unresolved(db, seen[i], t, id)
                && FirstUnresolved(db, seen, t, id) == Some(seen[i].credential)
    ensures FirstUnresolved(db, seen, t, id).Some? <==> exists j :: 0 <= j < |seen| && Unresolved(db, seen[j], t, id)
    ensures FirstUnresolved(db, seen, t, id).Some? ==> forall j :: 0 <= j < i ==> !Unresolved(db, seen[j], t, id)
    decreases |seen|
  {
    i := 0;
    if seen != [] && !Unresolved(db, seen[0], t, id) {
      var k := FirstUnresolvedIs(db, seen[1..], t, id);
      i := k + 1;
      if exists j :: 0 <= j < |seen| && Unresolved(db, seen[j], t, id) {
        var j :| 0 <= j < |seen| && Unresolved(db, seen[j], t, id);
        assert seen[1..][j - 1] == seen[j];
      }
      assert FirstUnresolved(db, seen, t, id).Some? ==> forall j :: 0 < j < i ==> seen[1..][j - 1] == seen[j];
    }
  }

  lemma UnresolvedNotInDatabase(db: seq<Row>, t: string, id: string, name: string)
    requires PrimaryKey(db) && FindOneBy(db, id, t).None? && Unique(db, name, t).Some?
    ensures Unique(db, name, t).value.id != id
  {
    FoundByName(db, name, t);
    var row := Unique(db, name, t).value;
    assert row in FindBy(db, name, t);
    FoundById(db, row);
  }

  lemma AgreesWithoutConflict(db: seq<Row>, es: seq<Entry>, k: nat)
    requires PrimaryKey(db) && k < |es| && (forall i :: 0 <= i < k ==> !Conflict(db, es, i, k))
    ensures AgreesAt(db, es, k)
  {
    var e := es[k];
    if e.credential.Details? && e.credential.id.Some? {
      var i := FirstUnresolvedIs(db, es[..k], e.credentialType, e.credential.id.value);
      assert FirstUnresolved(db, es[..k], e.credentialType, e.credential.id.value).Some? ==>
             es[..k][i] == es[i] && !Conflict(db, es, i, k);
    }
  }

  lemma ConflictDisagrees(db: seq<Row>, es: seq<Entry>, i: nat, j: nat)
    requires PrimaryKey(db) && Conflict(db, es, i, j)
    ensures !AgreesAt(db, es, i) || !AgreesAt(db, es, j)
  {
    var e, t, id := es[j], es[j].credentialType, es[j].credential.id.value;
    assert es[..j][i] == es[i];
    var first := FirstUnresolvedIs(db, es[..j], t, id);
    assert es[..j][first] == es[first] && first <= i;
    assert Outcome(db, es[..j], e) == es[first].credential;
    if Unique(db, e.credential.name, t).Some? {
      UnresolvedNotInDatabase(db, t, id, e.credential.name);
    } else if es[first].credential == e.credential {
      assert first < i;
      var again := FirstUnresolvedIs(db, es[..i], t, id);
      assert es[..i][first] == es[first];
      assert es[..i][again] == es[again] && es[..j][again] == es[again];
      assert again == first;
      assert Outcome(db, es[..i], es[i]) == es[first].credential;
    }
  }

  /** The cached replacement agrees with separate lookups on every credential exactly when no two
    * references conflict: in particular whenever equal type and id imply equal name. */
  lemma AgreesIff(db: seq<Row>, es: seq<Entry>)
    requires PrimaryKey(db)
    ensures (forall k :: 0 <= k < |es| ==> AgreesAt(db, es, k)) <==> (forall i, j :: !Conflict(db, es, i, j))
  {
    if forall i, j :: !Conflict(db, es, i, j) {
      forall k | 0 <= k < |es| ensures AgreesAt(db, es, k) {
        AgreesWithoutConflict(db, es, k);
      }
    } else {
      var i: nat, j: nat :| Conflict(db, es, i, j);
      ConflictDisagrees(db, es, i, j);
    }
  }

  /** Where an entry of a node stands among the visited ones. */
  lemma {:induction false} Standing(nodes: seq<Node>, k: nat, j: nat) returns (m: nat)
    requires k < |nodes| && !nodes[k].disabled && j < |nodes[k].credentials|
    ensures m < |Visited(nodes)| && Visited(nodes)[m] == nodes[k].credentials[j]
    ensures Visited(nodes)[..m] == Visited(nodes[..k]) + nodes[k].credentials[..j]
    decreases |nodes|
  {
    var rest := nodes[..|nodes| - 1];
    if k == |nodes| - 1 {
      m := |Visited(rest)| + j;
    } else {
      m := Standing(rest, k, j);
      assert rest[..k] == nodes[..k];
    }
  }

  /** Under the same condition every entry of every enabled node agrees with its own lookup; disabled nodes
    * are not touched at all. */
  lemma NodesAgree(db: seq<Row>, nodes: seq<Node>, k: nat, j: nat)
    requires PrimaryKey(db) && k < |nodes| && j < |nodes[k].credentials|
    requires forall a, b :: !Conflict(db, Visited(nodes), a, b)
    ensures var r := NodeOutcomes(db, nodes)[k];
            if nodes[k].disabled then r == nodes[k]
            else
              && |r.credentials| == |nodes[k].credentials|
              && r.credentials[j].credentialType == nodes[k].credentials[j].credentialType
              && AgreesWithLookup(db, nodes[k].credentials[j], r.credentials[j].credential)
  {
    if !nodes[k].disabled {
      var m := Standing(nodes, k, j);
      AgreesIff(db, Visited(nodes));
      assert AgreesAt(db, Visited(nodes), m);
    }
    NodeOutcomesAt(db, nodes, k);
  }

  /** A concrete conflict: both names point to the same unknown id; the second name alone would resolve. */
  lemma CachedDisagrees()
    ensures var db := [Row("7", "b", "t")];
            var es := [Entry("t", Details(Some("1"), "a")), Entry("t", Details(Some("1"), "b"))];
            && PrimaryKey(db) && Lookup(db, es[1]) == Some(db[0])
            && Outcome(db, es[..1], es[1]) == Details(Some("1"), "a")
  {
    var db := [Row("7", "b", "t")];
    var es := [Entry("t", Details(Some("1"), "a")), Entry("t", Details(Some("1"), "b"))];
    assert "7" != "1" && "b" != "a";
    assert db[1..] == [];
    assert FindBy([], "b", "t") == [] && FindBy([], "a", "t") == [] && FindOneBy([], "1", "t") == None;
    assert FindBy(db, "b", "t") == [db[0]] && FindBy(db, "a", "t") == [] && FindOneBy(db, "1", "t") == None;
    assert es[..1] == [es[0]];
    assert Unresolved(db, es[0], "t", "1");
  }
}
