/** The Personal-Doc as a tree of Y.Maps: writing plain values into it, the flat form of the notification
    state, and the rebuild that drops legacy root maps. Trees are values here; a plain array is opaque. */
module PersonalDoc {
  import opened Common
  import Text

  datatype Plain = Leaf(v: nat) | List(items: seq<nat>) | Object(fields: map<string, Plain>)

  /** A Y.Map entry: a value stored as it is, a Y.Array, or a nested Y.Map. */
  datatype YValue = Raw(plain: Plain) | YArray(items: seq<nat>) | YMap(entries: map<string, YValue>)

  type Fields = map<string, Plain>
  type Entries = map<string, YValue>

  // ---------------------------------------------------------------- plain view and apply

  function ViewOf(v: YValue): Plain {
    match v
    case Raw(p) => p
    case YArray(items) => List(items)
    case YMap(entries) => Object(map k | k in entries :: ViewOf(entries[k]))
  }

  /** `ymapToPlain`. */
  function View(y: Entries): Fields {
    map k | k in y :: ViewOf(y[k])
  }

  function Child(y: Entries, k: string): Entries {
    if k in y && y[k].YMap? then y[k].entries else map[]
  }

  /** `applyPlainToYmap`: what it leaves under the keys of `p`, and elsewhere what was there. An object goes
      into the nested map, or into a new one where there is none. */
  function Apply(y: Entries, p: Fields): Entries
    decreases Object(p)
  {
    map k | k in y.Keys + p.Keys ::
      if k !in p then y[k]
      else match p[k]
           case Leaf(_) => Raw(p[k])
           case List(items) => YArray(items)
           case Object(f) => YMap(Apply(Child(y, k), f))
  }

  function Base(a: Fields, k: string): Fields {
    if k in a && a[k].Object? then a[k].fields else map[]
  }

  /** The recursive deep merge of plain trees. */
  function Merge(a: Fields, p: Fields): Fields
    decreases Object(p)
  {
    map k | k in a.Keys + p.Keys ::
      if k !in p then a[k] else if p[k].Object? then Object(Merge(Base(a, k), p[k].fields)) else p[k]
  }

  /** Some key of `e`, at some depth, is neither overwritten nor removed by `p`. */
  predicate Outlives(e: Fields, p: Fields)
    decreases Object(p)
  {
    exists k :: k in e && (k !in p || (e[k].Object? && p[k].Object? && Outlives(e[k].fields, p[k].fields)))
  }

  /** Somewhere `p` has an object where the map holds a raw object, not a nested map, with a key that would
      survive a merge. */
  predicate Loses(y: Entries, p: Fields)
    decreases Object(p), 1
  {
    exists k :: k in p && k in y && p[k].Object? && LosesAt(y, p, k)
  }

  predicate LosesAt(y: Entries, p: Fields, k: string)
    requires k in p && k in y && p[k].Object?
    decreases Object(p), 0
  {
    (y[k].Raw? && y[k].plain.Object? && Outlives(y[k].plain.fields, p[k].fields))
    || (y[k].YMap? && Loses(y[k].entries, p[k].fields))
  }

  lemma {:induction false} MergeKeepsOutliving(e: Fields, p: Fields)
    ensures Merge(e, p) == Merge(map[], p) <==> !Outlives(e, p)
    decreases Object(p)
  {
    var a, b := Merge(e, p), Merge(map[], p);
    forall k | k in e && k in p && p[k].Object?
      ensures a[k] == b[k] <==> !(e[k].Object? && Outlives(e[k].fields, p[k].fields))
    {
      MergeKeepsOutliving(Base(e, k), p[k].fields);
      assert Base(map[], k) == map[];
    }
    if Outlives(e, p) {
      var k :| k in e && (k !in p || (e[k].Object? && p[k].Object? && Outlives(e[k].fields, p[k].fields)));
      assert k in a && (k in b ==> k in p);
    } else {
      assert a.Keys == b.Keys;
      forall k | k in a ensures a[k] == b[k] {
        if k !in e && p[k].Object? { assert Base(e, k) == Base(map[], k); }
      }
    }
  }

  lemma {:induction false} MergeIntoNothing(p: Fields)
    ensures Merge(map[], p) == p
    decreases Object(p)
  {
    forall k | k in p ensures Merge(map[], p)[k] == p[k] {
      if p[k].Object? {
        MergeIntoNothing(p[k].fields);
        assert Base(map[], k) == map[];
      }
    }
  }

  lemma SameKeys(y: Entries, p: Fields)
    ensures Apply(y, p).Keys == y.Keys + p.Keys == View(Apply(y, p)).Keys == Merge(View(y), p).Keys
    ensures forall k :: k in y.Keys + p.Keys ==> View(Apply(y, p))[k] == ViewOf(Apply(y, p)[k])
  {
  }

  /** Applying a plain tree shows as the deep merge of the plain views, exactly unless a raw object is lost. */
  lemma {:induction false} ApplyIsMergeUnlessLost(y: Entries, p: Fields)
    ensures View(Apply(y, p)) == Merge(View(y), p) <==> !Loses(y, p)
    decreases Object(p), 1
  {
    SameKeys(y, p);
    hide Apply, Merge, View, LosesAt;
    var a, b := View(Apply(y, p)), Merge(View(y), p);
    forall k | k in a ensures a[k] == b[k] <==> !(k in p && k in y && p[k].Object? && LosesAt(y, p, k)) {
      if k in p && k in y && p[k].Object? {
        AppliedObject(y, p, k);
      } else {
        AppliedOtherwise(y, p, k);
      }
    }
    if Loses(y, p) {
      var k :| k in p && k in y && p[k].Object? && LosesAt(y, p, k);
      assert a[k] != b[k];
    }
  }

  lemma AppliedOtherwise(y: Entries, p: Fields, k: string)
    requires k in y.Keys + p.Keys && !(k in p && k in y && p[k].Object?)
    ensures k in View(Apply(y, p)) && k in Merge(View(y), p)
    ensures View(Apply(y, p))[k] == Merge(View(y), p)[k]
  {
    if k in p && p[k].Object? {
      ApplyIntoNothing(p[k].fields);
      MergeIntoNothing(p[k].fields);
      assert Child(y, k) == map[] && Base(View(y), k) == map[];
    }
  }

  lemma {:induction false} AppliedObject(y: Entries, p: Fields, k: string)
    requires k in p && k in y && p[k].Object?
    ensures View(Apply(y, p))[k] == Merge(View(y), p)[k] <==> !LosesAt(y, p, k)
    decreases Object(p), 0
  {
    var f := p[k].fields;
    assert p[k] == Object(f);
    assert View(Apply(y, p))[k] == Object(View(Apply(Child(y, k), f)));
    assert Merge(View(y), p)[k] == Object(Merge(Base(View(y), k), f));
    if y[k].YMap? {
      assert Base(View(y), k) == View(y[k].entries);
      ApplyIsMergeUnlessLost(y[k].entries, f);
    } else {
      ApplyIntoNothing(f);
      MergeIntoNothing(f);
      MergeKeepsOutliving(Base(View(y), k), f);
    }
  }

  /** Into an empty map, the plain view is the tree itself. */
  lemma {:induction false} ApplyIntoNothing(p: Fields)
    ensures View(Apply(map[], p)) == p
    decreases Object(p)
  {
    forall k | k in p ensures View(Apply(map[], p))[k] == p[k] {
      if p[k].Object? {
        ApplyIntoNothing(p[k].fields);
        assert Child(map[], k) == map[];
      }
    }
  }

  predicate NoRawObjects(y: Entries)
    decreases YMap(y)
  {
    forall k :: k in y ==> (y[k].Raw? ==> !y[k].plain.Object?) && (y[k].YMap? ==> NoRawObjects(y[k].entries))
  }

  /** Maps that were only ever written this way hold no raw objects, so for them it is always the merge. */
  lemma {:induction false} ApplyKeepsNoRawObjects(y: Entries, p: Fields)
    requires NoRawObjects(y)
    ensures NoRawObjects(Apply(y, p)) && !Loses(y, p)
    decreases Object(p)
  {
    forall k | k in p && p[k].Object?
      ensures NoRawObjects(Apply(Child(y, k), p[k].fields)) && !Loses(Child(y, k), p[k].fields)
    {
      ApplyKeepsNoRawObjects(Child(y, k), p[k].fields);
    }
  }

  lemma ApplyLooksUp(y: Entries, p: Fields, k: string)
    ensures k in p ==>
      && (k in Apply(y, p))
      && (Apply(y, p)[k] == match p[k]
                              case Leaf(_) => Raw(p[k])
                              case List(items) => YArray(items)
                              case Object(f) => YMap(Apply(Child(y, k), f)))
  {
  }

  /** The map in the middle of the loop: applied under the keys in `done`, untouched elsewhere. */
  function Partly(y: Entries, p: Fields, done: set<string>): Entries
    requires done <= p.Keys
  {
    var target := Apply(y, p);
    map k | k in y.Keys + done :: if k in done then target[k] else y[k]
  }

  lemma PartlyGrows(y: Entries, p: Fields, done: set<string>, k: string)
    ensures done <= p.Keys && k in p && k !in done ==>
      && (Partly(y, p, done + {k}) == Partly(y, p, done)[k := Apply(y, p)[k]])
      && (k in Partly(y, p, done) <==> k in y)
      && (k in y ==> Partly(y, p, done)[k] == y[k])
  {
  }

  lemma PartlyEnds(y: Entries, p: Fields)
    ensures Partly(y, p, {}) == y && Partly(y, p, p.Keys) == Apply(y, p)
  {
  }

  /** The loop over the fields, with the map it writes. */
  method ApplyPlainToYmap(ymap: Entries, plain: Fields) returns (result: Entries)
    ensures result == Apply(ymap, plain)
    decreases Object(plain), 1
  {
    PartlyEnds(ymap, plain);
    hide Apply, Partly;
    result := ymap;
    var done, rest := {}, plain.Keys;
    while rest != {}
      invariant done + rest == plain.Keys && done !! rest
      invariant result == Partly(ymap, plain, done)
      decreases |rest|
    {
      var k :| k in rest;
      PartlyGrows(ymap, plain, done, k);
      var value := WriteField(result, ymap, plain, k);
      result := result[k := value];
      done, rest := done + {k}, rest - {k};
    }
    assert done == plain.Keys;
  }

  method WriteField(current: Entries, ymap: Entries, plain: Fields, k: string) returns (value: YValue)
    requires k in plain && (k in current <==> k in ymap) && (k in ymap ==> current[k] == ymap[k])
    ensures k in Apply(ymap, plain) && value == Apply(ymap, plain)[k]
    decreases Object(plain), 0
  {
    ApplyLooksUp(ymap, plain, k);
    hide Apply;
    match plain[k]
    case Leaf(_) => value := Raw(plain[k]);
    case List(items) => value := YArray(items);
    case Object(f) =>
      var childMap := map[];
      if k in current && current[k].YMap? { childMap := current[k].entries; }
      var written := ApplyPlainToYmap(childMap, f);
      value := YMap(written);
  }

  // ---------------------------------------------------------------- notification state

  datatype Field = LastSeenByDevice | ReadUpToByDevice | ReadEntryKeys | MutedGroupIds

  const FIELDS: seq<Field> := [LastSeenByDevice, ReadUpToByDevice, ReadEntryKeys, MutedGroupIds]

  function Prefix(f: Field): string {
    match f
    case LastSeenByDevice => "lastSeenByDevice:"
    case ReadUpToByDevice => "readUpToByDevice:"
    case ReadEntryKeys => "readEntryKeys:"
    case MutedGroupIds => "mutedGroupIds:"
  }

  predicate Under(f: Field, key: string) {
    Prefix(f) <= key
  }

  /** A key belongs to one field at most, whatever colons the rest of it has. */
  lemma OneField(f: Field, g: Field, key: string)
    requires Under(f, key) && Under(g, key)
    ensures f == g
  {
    assert key[0] == Prefix(f)[0] == Prefix(g)[0] && key[4] == Prefix(f)[4] == Prefix(g)[4];
  }

  function Rest(f: Field, key: string): string
    requires Under(f, key)
    ensures key == Prefix(f) + Rest(f, key)
  {
    key[|Prefix(f)|..]
  }

  /** The entries of one field, as a record of its own. */
  function Section(y: Entries, f: Field): Entries {
    map k | k in (set key | key in y && Under(f, key) :: Rest(f, key)) :: y[Prefix(f) + k]
  }

  /** What the snapshot shows: the fields that have entries. */
  function NotificationsOf(y: Entries): map<Field, Entries> {
    map f | f in FIELDS && Section(y, f) != map[] :: Section(y, f)
  }

  function PutField(y: Entries, f: Field, m: Entries): Entries {
    map key | key in y.Keys + (set k | k in m :: Prefix(f) + k) ::
      if Under(f, key) && Rest(f, key) in m then m[Rest(f, key)] else y[key]
  }

  function ClearField(y: Entries, f: Field): Entries {
    map key | key in y && !Under(f, key) :: y[key]
  }

  lemma RestOfKey(f: Field, k: string)
    ensures Under(f, Prefix(f) + k) && Rest(f, Prefix(f) + k) == k
  {
  }

  lemma InSection(y: Entries, f: Field, k: string)
    ensures k in Section(y, f) <==> Prefix(f) + k in y
    ensures k in Section(y, f) ==> Section(y, f)[k] == y[Prefix(f) + k]
  {
  }

  /** Writing one field of the notification state reads back as written, and leaves the others alone. */
  lemma PutFieldShows(y: Entries, f: Field, m: Entries, g: Field)
    ensures Section(PutField(y, f, m), g) == if g == f then Section(y, f) + m else Section(y, g)
  {
    hide Section, Prefix;
    var t := PutField(y, f, m);
    forall k ensures k in Section(t, g) <==> k in (if g == f then Section(y, f) + m else Section(y, g))
             ensures k in Section(t, g) ==> Section(t, g)[k] == (if g == f then Section(y, f) + m else Section(y, g))[k]
    {
      InSection(t, g, k);
      InSection(y, g, k);
      RestOfKey(g, k);
      var key := Prefix(g) + k;
      if Under(f, key) { OneField(f, g, key); }
      if g == f && k in m { assert key in set j | j in m :: Prefix(f) + j; }
    }
  }

  lemma ClearFieldShows(y: Entries, f: Field, g: Field)
    ensures Section(ClearField(y, f), g) == if g == f then map[] else Section(y, g)
  {
    hide Section, Prefix;
    var t := ClearField(y, f);
    forall k ensures k in Section(t, g) <==> g != f && k in Section(y, g)
             ensures k in Section(t, g) ==> Section(t, g)[k] == Section(y, g)[k]
    {
      InSection(t, g, k);
      InSection(y, g, k);
      RestOfKey(g, k);
      if Under(f, Prefix(g) + k) { OneField(f, g, Prefix(g) + k); }
    }
  }

  /** Assigning a field through the proxy replaces that field and no other. */
  lemma AssignmentIsIsolated(y: Entries, f: Field, m: Entries, g: Field)
    ensures Section(PutField(ClearField(y, f), f, m), g) == if g == f then m else Section(y, g)
  {
    ClearFieldShows(y, f, g);
    PutFieldShows(ClearField(y, f), f, m, g);
    assert map[] + m == m;
  }

  /** And so do writing and deleting one entry of it. */
  lemma EntryIsIsolated(y: Entries, f: Field, k: string, v: YValue, g: Field)
    ensures Section(y[Prefix(f) + k := v], g) == if g == f then Section(y, f)[k := v] else Section(y, g)
    ensures Section(y - {Prefix(f) + k}, g) == if g == f then Section(y, f) - {k} else Section(y, g)
  {
    hide Section, Prefix;
    var t, u := y[Prefix(f) + k := v], y - {Prefix(f) + k};
    forall j ensures j in Section(t, g) <==> j in (if g == f then Section(y, f)[k := v] else Section(y, g))
             ensures j in Section(t, g) ==>
               Section(t, g)[j] == (if g == f then Section(y, f)[k := v] else Section(y, g))[j]
             ensures j in Section(u, g) <==> j in (if g == f then Section(y, f) - {k} else Section(y, g))
             ensures j in Section(u, g) ==> Section(u, g)[j] == Section(y, g)[j]
    {
      InSection(t, g, j);
      InSection(u, g, j);
      InSection(y, g, j);
      RestOfKey(g, j);
      RestOfKey(f, k);
      if Prefix(g) + j == Prefix(f) + k { OneField(f, g, Prefix(f) + k); }
    }
  }

  function FieldOf(value: map<Field, Entries>, f: Field): Entries {
    if f in value then value[f] else map[]
  }

  /** The writes of the first `n` fields, one after the other. */
  function Flatten(y: Entries, value: map<Field, Entries>, n: nat): Entries
    requires n <= |FIELDS|
  {
    if n == 0 then y else PutField(Flatten(y, value, n - 1), FIELDS[n - 1], FieldOf(value, FIELDS[n - 1]))
  }

  predicate Listed(g: Field, n: nat)
  {
    exists j :: 0 <= j < n <= |FIELDS| && FIELDS[j] == g
  }

  lemma {:induction false} FlattenShows(y: Entries, value: map<Field, Entries>, n: nat, g: Field)
    requires n <= |FIELDS|
    ensures Section(Flatten(y, value, n), g)
      == if Listed(g, n) then Section(y, g) + FieldOf(value, g) else Section(y, g)
    decreases n
  {
    hide Section, PutField;
    if n > 0 {
      FlattenShows(y, value, n - 1, g);
      PutFieldShows(Flatten(y, value, n - 1), FIELDS[n - 1], FieldOf(value, FIELDS[n - 1]), g);
      assert Listed(g, n) <==> Listed(g, n - 1) || FIELDS[n - 1] == g;
      assert FIELDS[n - 1] == g ==> !Listed(g, n - 1);
    }
  }

  lemma EveryFieldIsListed(f: Field)
    ensures f in FIELDS && Listed(f, |FIELDS|)
  {
    assert FIELDS[0] == LastSeenByDevice && FIELDS[1] == ReadUpToByDevice;
    assert FIELDS[2] == ReadEntryKeys && FIELDS[3] == MutedGroupIds;
  }

  /** Whatever state is flattened into an empty map reads back as it was, without the fields that were empty;
      keys may hold any colons. */
  lemma NotificationsRoundTrip(value: map<Field, Entries>)
    ensures NotificationsOf(Flatten(map[], value, |FIELDS|)) == map f | f in value && value[f] != map[] :: value[f]
  {
    hide Section, FIELDS, Flatten, Listed;
    var flat := Flatten(map[], value, |FIELDS|);
    forall f: Field ensures f in FIELDS && Section(flat, f) == FieldOf(value, f) {
      EveryFieldIsListed(f);
      FlattenShows(map[], value, |FIELDS|, f);
      WithNothing(map[], f, map[]);
      assert map[] + FieldOf(value, f) == FieldOf(value, f);
    }
  }

  function Only(m: Entries, keys: set<string>): Entries {
    map k | k in m && k in keys :: m[k]
  }

  lemma OneMoreEntry(y: Entries, f: Field, m: Entries, done: set<string>, k: string)
    requires k in m
    ensures PutField(y, f, Only(m, done + {k})) == PutField(y, f, Only(m, done))[Prefix(f) + k := m[k]]
  {
    hide Prefix;
    RestOfKey(f, k);
    var a, b := PutField(y, f, Only(m, done + {k})), PutField(y, f, Only(m, done))[Prefix(f) + k := m[k]];
    forall key ensures key in a <==> key in b
               ensures key in a && key in b ==> a[key] == b[key]
    {
    }
  }

  lemma WithNothing(y: Entries, f: Field, m: Entries)
    ensures PutField(y, f, Only(m, {})) == y && Only(m, m.Keys) == m && Section(map[], f) == map[]
  {
  }

  /** The writes of one field, one per entry. */
  method WriteEntries(y: Entries, f: Field, m: Entries) returns (result: Entries)
    ensures result == PutField(y, f, m)
  {
    hide PutField, Only, Prefix;
    result := y;
    var done, rest := {}, m.Keys;
    WithNothing(y, f, m);
    while rest != {}
      invariant done + rest == m.Keys && done !! rest
      invariant result == PutField(y, f, Only(m, done))
      decreases |rest|
    {
      var k :| k in rest;
      OneMoreEntry(y, f, m, done, k);
      result := result[Prefix(f) + k := m[k]];
      done, rest := done + {k}, rest - {k};
    }
    assert done == m.Keys;
  }

  /** `applyNotificationStateToYmap`. */
  method ApplyNotifications(y: Entries, value: map<Field, Entries>) returns (result: Entries)
    ensures result == Flatten(y, value, |FIELDS|)
  {
    hide PutField;
    result := y;
    for i := 0 to |FIELDS|
      invariant result == Flatten(y, value, i)
    {
      var f := FIELDS[i];
      result := WriteEntries(result, f, if f in value then value[f] else map[]);
    }
  }

  // ---------------------------------------------------------------- the legacy rebuild

  datatype RecordMap =
    | Contacts | Attestations | AttestationMetadata | Outbox | Spaces | GroupKeys | CapabilitySigningSeeds
    | DismissedNotifications | MembershipRemovals

  /** The root maps; one that was never touched is empty. `legacy` are all others. */
  datatype Doc = Doc(
    profile: Entries, notifications: Entries, records: map<RecordMap, Entries>, legacy: map<string, Entries>)

  function Records(d: Doc, r: RecordMap): Entries {
    if r in d.records then d.records[r] else map[]
  }

  /** `ymapOfMapsToRecord`: entries that are no Y.Map do not show. */
  function RecordView(y: Entries): map<string, Fields> {
    map k | k in y && y[k].YMap? :: View(y[k].entries)
  }

  /** Two parts of the snapshot are left out while their maps are empty; the records never are. */
  datatype Snapshot = Snapshot(
    profile: Option<Fields>, notifications: Option<map<Field, Entries>>, removals: Option<map<string, Fields>>,
    records: map<RecordMap, map<string, Fields>>)

  const ALWAYS_SHOWN: set<RecordMap> :=
    {Contacts, Attestations, AttestationMetadata, Outbox, Spaces, GroupKeys,
      CapabilitySigningSeeds, DismissedNotifications}

  /** `snapshotDoc`. */
  function SnapshotOf(d: Doc): Snapshot {
    Snapshot(
      if d.profile == map[] then None else Some(View(d.profile)),
      if d.notifications == map[] then None else Some(NotificationsOf(d.notifications)),
      if Records(d, MembershipRemovals) == map[] then None else Some(RecordView(Records(d, MembershipRemovals))),
      ShownRecords(d))
  }

  function ShownRecords(d: Doc): map<RecordMap, map<string, Fields>> {
    map r | r in ALWAYS_SHOWN :: RecordView(Records(d, r))
  }

  /** `Object.entries` on what an entry's JSON is; of an array, its elements by index. */
  function OwnFields(p: Plain): Fields {
    match p
    case Object(f) => f
    case List(items) => Indexed(items, 0)
    case Leaf(_) => map[]
  }

  function Indexed(items: seq<nat>, i: nat): Fields
    decreases |items| - i
  {
    if i >= |items| then map[] else Indexed(items, i + 1)[Text.Decimal(i) := Leaf(items[i])]
  }

  lemma {:induction false} IndexedShows(items: seq<nat>, i: nat, k: string)
    ensures k in Indexed(items, i) <==> exists j :: i <= j < |items| && Text.Decimal(j) == k
    ensures forall j :: i <= j < |items| && Text.Decimal(j) == k ==> Indexed(items, i)[k] == Leaf(items[j])
    decreases |items| - i
  {
    if i < |items| {
      IndexedShows(items, i + 1, k);
      Text.ValueOfDecimal(i);
      forall j | i < j < |items| ensures Text.Decimal(j) != Text.Decimal(i) {
        Text.ValueOfDecimal(j);
      }
    }
  }

  /** An entry that was an array is a Y.Map of its elements by their index after a rebuild, and one that was a
      plain value is an empty one. */
  lemma RebuiltEntryShows(y: Entries, k: string, i: string)
    requires k in y && !y[k].YMap?
    ensures var own := OwnFields(ViewOf(y[k])); var m := RecordView(RebuiltRecord(y));
      && k in m && m[k] == own
      && (ViewOf(y[k]).Leaf? ==> own == map[])
      && (ViewOf(y[k]).List? ==>
            var items := ViewOf(y[k]).items;
            && (i in own <==> exists j :: 0 <= j < |items| && Text.Decimal(j) == i)
            && (forall j :: 0 <= j < |items| && Text.Decimal(j) == i ==> own[i] == Leaf(items[j])))
  {
    ApplyIntoNothing(OwnFields(ViewOf(y[k])));
    if ViewOf(y[k]).List? { IndexedShows(ViewOf(y[k]).items, 0, i); }
  }

  function RebuiltRecord(y: Entries): Entries {
    map k | k in y :: YMap(Apply(map[], OwnFields(ViewOf(y[k]))))
  }

  /** `rebuildPersonalDocWithoutLegacyMaps`: the listed root maps are copied through their JSON. */
  function Rebuild(d: Doc): Doc {
    Doc(Apply(map[], View(d.profile)),
        map k | k in d.notifications :: Raw(ViewOf(d.notifications[k])),
        map r | r in d.records && r != Outbox && d.records[r] != map[] :: RebuiltRecord(d.records[r]),
        map[])
  }

  /** Every entry of a kept record map is a Y.Map, and every notification entry that shows is a plain value:
      what this code has ever written. */
  predicate Tidy(d: Doc) {
    && (forall r :: r in d.records && r != Outbox ==> OnlyMaps(d.records[r]))
    && (forall k, f :: k in d.notifications && f in FIELDS && Under(f, k) ==> d.notifications[k].Raw?)
  }

  predicate OnlyMaps(y: Entries) {
    forall k :: k in y ==> y[k].YMap?
  }

  lemma RecordSurvives(y: Entries)
    ensures RecordView(RebuiltRecord(y)) == RecordView(y) <==> OnlyMaps(y)
    ensures RebuiltRecord(y) == map[] <==> y == map[]
  {
    var t := RebuiltRecord(y);
    assert RecordView(t).Keys == y.Keys;
    forall k | k in y && y[k].YMap? ensures RecordView(t)[k] == RecordView(y)[k] {
      ApplyIntoNothing(View(y[k].entries));
      assert OwnFields(ViewOf(y[k])) == View(y[k].entries);
    }
    if !OnlyMaps(y) {
      var k :| k in y && !y[k].YMap?;
      assert k in RecordView(t) && k !in RecordView(y);
    }
    if y != map[] {
      var k :| k in y;
      assert k in t;
    }
  }

  predicate Shown(y: Entries) {
    forall k, f :: k in y && f in FIELDS && Under(f, k) ==> y[k].Raw?
  }

  function Copied(y: Entries): Entries {
    map k | k in y :: Raw(ViewOf(y[k]))
  }

  lemma SectionSurvives(y: Entries, f: Field)
    ensures Section(Copied(y), f) == Section(y, f) <==> forall k :: k in y && Under(f, k) ==> y[k].Raw?
    ensures Section(Copied(y), f) == map[] <==> Section(y, f) == map[]
  {
    hide Section;
    var t := Copied(y);
    forall k ensures k in Section(t, f) <==> k in Section(y, f)
             ensures k in Section(y, f) ==> Prefix(f) + k in y && Section(y, f)[k] == y[Prefix(f) + k]
             ensures k in Section(y, f) ==> Section(t, f)[k] == Raw(ViewOf(y[Prefix(f) + k]))
    {
      InSection(t, f, k);
      InSection(y, f, k);
    }
    assert Section(t, f).Keys == Section(y, f).Keys;
    if key :| key in y && Under(f, key) && !y[key].Raw? {
      InSection(y, f, Rest(f, key));
      assert Section(t, f)[Rest(f, key)] != Section(y, f)[Rest(f, key)];
    } else {
      forall k | k in Section(y, f) ensures Section(t, f)[k] == Section(y, f)[k] {
        RestOfKey(f, k);
      }
    }
  }

  lemma NotificationsSurvive(y: Entries)
    ensures NotificationsOf(Copied(y)) == NotificationsOf(y) <==> Shown(y)
    ensures Copied(y) == map[] <==> y == map[]
  {
    hide Section, FIELDS;
    var t := Copied(y);
    forall f: Field { SectionSurvives(y, f); }
    if !Shown(y) {
      var k, f :| k in y && f in FIELDS && Under(f, k) && !y[k].Raw?;
      InSection(y, f, Rest(f, k));
      assert Section(y, f) != map[];
      assert f in NotificationsOf(y) && f in NotificationsOf(t) && NotificationsOf(t)[f] != NotificationsOf(y)[f];
    }
    if y != map[] {
      var k :| k in y;
      assert k in t;
    }
  }

  /** The profile written from scratch is what the snapshot shows of it, and nothing where nothing was. */
  lemma WrittenProfileShows(d: Doc, p: Fields)
    ensures var s := SnapshotOf(d.(profile := Apply(map[], p)));
      && s.profile == (if p == map[] then None else Some(p))
      && s == SnapshotOf(d).(profile := s.profile)
  {
    ApplyIntoNothing(p);
    if p != map[] {
      var k :| k in p;
      assert k in Apply(map[], p);
    }
    hide Records, RecordView, NotificationsOf, View, Apply;
    assert ShownRecords(d.(profile := Apply(map[], p))) == ShownRecords(d);
  }

  /** The notification state likewise, without its empty fields, where any entry was written. */
  lemma WrittenNotificationsShow(d: Doc, value: map<Field, Entries>)
    ensures var y := Flatten(map[], value, |FIELDS|); var s := SnapshotOf(d.(notifications := y));
      && s == SnapshotOf(d).(notifications := s.notifications)
      && (s.notifications.None? <==> forall f :: f in value ==> value[f] == map[])
      && (s.notifications.Some? ==> s.notifications.value == map f | f in value && value[f] != map[] :: value[f])
  {
    var y := Flatten(map[], value, |FIELDS|);
    NotificationsRoundTrip(value);
    EmptyUnlessWritten(value);
    hide Records, RecordView, NotificationsOf, Flatten;
    assert ShownRecords(d.(notifications := y)) == ShownRecords(d);
  }

  lemma EmptyUnlessWritten(value: map<Field, Entries>)
    ensures Flatten(map[], value, |FIELDS|) == map[] <==> forall f :: f in value ==> value[f] == map[]
  {
    var y := Flatten(map[], value, |FIELDS|);
    NotificationsRoundTrip(value);
    if y == map[] {
      forall f | f in value ensures value[f] == map[] {
        assert Section(map[], f) == map[];
        assert f !in NotificationsOf(y);
      }
    }
    if forall f :: f in value ==> value[f] == map[] { FlattenedNothing(value, |FIELDS|); }
  }

  lemma {:induction false} FlattenedNothing(value: map<Field, Entries>, n: nat)
    requires n <= |FIELDS| && forall f :: f in value ==> value[f] == map[]
    ensures Flatten(map[], value, n) == map[]
    decreases n
  {
    if n > 0 {
      FlattenedNothing(value, n - 1);
      assert FieldOf(value, FIELDS[n - 1]) == map[];
      WithNothing(map[], FIELDS[n - 1], map[]);
    }
  }

  /** A record map as this code writes it: one Y.Map for each entry. */
  function WrittenRecords(m: map<string, Fields>): Entries {
    map k | k in m :: YMap(Apply(map[], m[k]))
  }

  lemma WrittenReadsBack(m: map<string, Fields>)
    ensures RecordView(WrittenRecords(m)) == m
    ensures WrittenRecords(m) == map[] <==> m == map[]
  {
    forall k | k in m ensures View(WrittenRecords(m)[k].entries) == m[k] {
      ApplyIntoNothing(m[k]);
    }
    assert WrittenRecords(m).Keys == m.Keys;
  }

  lemma RecordsAfter(d: Doc, r: RecordMap, y: Entries, q: RecordMap)
    ensures Records(d.(records := d.records[r := y]), q) == if q == r then y else Records(d, q)
  {
  }

  lemma ShownAfter(d: Doc, r: RecordMap, y: Entries)
    ensures ShownRecords(d.(records := d.records[r := y]))
      == if r == MembershipRemovals then ShownRecords(d) else ShownRecords(d)[r := RecordView(y)]
  {
    var t := d.(records := d.records[r := y]);
    var a, b := ShownRecords(t), ShownRecords(d);
    ShownOnes(d);
    ShownOnes(t);
    hide Records, RecordView, ShownRecords, ALWAYS_SHOWN;
    forall q | q in a ensures a[q] == if q == r then RecordView(y) else b[q] {
      RecordsAfter(d, r, y, q);
    }
    if r == MembershipRemovals {
      assert a == b;
    } else {
      assert a.Keys == b[r := RecordView(y)].Keys;
    }
  }

  /** A record map written from scratch shows as what was written; the one that may be left out is left out
      exactly while it is empty; and no other part changes. */
  lemma WrittenRecordsShow(d: Doc, r: RecordMap, m: map<string, Fields>)
    ensures var s := SnapshotOf(d.(records := d.records[r := WrittenRecords(m)]));
      s == if r == MembershipRemovals then SnapshotOf(d).(removals := if m == map[] then None else Some(m))
           else SnapshotOf(d).(records := SnapshotOf(d).records[r := m])
    ensures r != MembershipRemovals ==> r in SnapshotOf(d).records
  {
    WrittenReadsBack(m);
    ShownAfter(d, r, WrittenRecords(m));
    RecordsAfter(d, r, WrittenRecords(m), MembershipRemovals);
    ShownOnes(d);
    hide Records, RecordView, NotificationsOf, View, ShownRecords, WrittenRecords;
  }

  function WithoutOutbox(s: Snapshot): Snapshot {
    s.(records := s.records[Outbox := map[]])
  }

  lemma ProfileStays(d: Doc)
    ensures SnapshotOf(Rebuild(d)).profile == SnapshotOf(d).profile
  {
    RebuiltAtOnce(d);
    hide Rebuild, Records, RecordView, NotificationsOf, Apply, View;
  }

  lemma NotificationsStay(d: Doc)
    ensures SnapshotOf(Rebuild(d)).notifications == SnapshotOf(d).notifications <==> Shown(d.notifications)
  {
    NotificationsSurvive(d.notifications);
    assert Rebuild(d).notifications == Copied(d.notifications);
    hide Rebuild, Records, RecordView, NotificationsOf, Apply, View, Copied;
    assert d.notifications == map[] ==> Shown(d.notifications);
  }

  lemma RemovalsStay(d: Doc)
    ensures SnapshotOf(Rebuild(d)).removals == SnapshotOf(d).removals <==> OnlyMaps(Records(d, MembershipRemovals))
  {
    RebuiltRecords(d, MembershipRemovals);
    hide Rebuild, Records, RecordView, NotificationsOf, Apply, View;
    assert Records(d, MembershipRemovals) == map[] ==> OnlyMaps(Records(d, MembershipRemovals));
  }

  lemma ShownOnes(d: Doc)
    ensures ShownRecords(d).Keys == ALWAYS_SHOWN
    ensures forall r :: r in ALWAYS_SHOWN ==> ShownRecords(d)[r] == RecordView(Records(d, r))
    ensures forall r: RecordMap :: r in ALWAYS_SHOWN <==> r != MembershipRemovals
  {
  }

  lemma RecordMapsStay(d: Doc)
    ensures ShownRecords(Rebuild(d)) == ShownRecords(d)[Outbox := map[]]
      <==> forall r :: r in ALWAYS_SHOWN && r != Outbox ==> OnlyMaps(Records(d, r))
  {
    hide Rebuild, Records, RecordView, OnlyMaps, ShownRecords, ALWAYS_SHOWN;
    var a, b := ShownRecords(Rebuild(d)), ShownRecords(d)[Outbox := map[]];
    ShownOnes(d);
    ShownOnes(Rebuild(d));
    RebuiltAtOnce(d);
    forall r | r in ALWAYS_SHOWN && r != Outbox ensures a[r] == b[r] <==> OnlyMaps(Records(d, r)) {
      RebuiltRecords(d, r);
    }
  }

  /** The rebuild empties the outbox and the legacy maps, and shows everything else as before, exactly if the
      document is tidy. */
  lemma RebuildKeepsTheSnapshot(d: Doc)
    ensures SnapshotOf(Rebuild(d)) == WithoutOutbox(SnapshotOf(d)) <==> Tidy(d)
    ensures Rebuild(d).legacy == map[]
  {
    hide Rebuild, OnlyMaps, Shown, Tidy, Records, RecordView, NotificationsOf, View, ShownRecords, ALWAYS_SHOWN;
    ProfileStays(d);
    NotificationsStay(d);
    RemovalsStay(d);
    RecordMapsStay(d);
    TidyByRecords(d);
    ShownOnes(d);
    RebuiltAtOnce(d);
    assert SnapshotOf(d).records == ShownRecords(d) && SnapshotOf(Rebuild(d)).records == ShownRecords(Rebuild(d));
    hide SnapshotOf;
  }

  lemma RebuiltAtOnce(d: Doc)
    ensures Rebuild(d).legacy == map[] && RecordView(Records(Rebuild(d), Outbox)) == map[]
    ensures View(Rebuild(d).profile) == View(d.profile)
    ensures Rebuild(d).profile == map[] <==> d.profile == map[]
  {
    ApplyIntoNothing(View(d.profile));
    if d.profile != map[] {
      var k :| k in d.profile;
      assert k in Rebuild(d).profile;
    }
  }

  lemma RebuiltRecords(d: Doc, r: RecordMap)
    requires r != Outbox
    ensures RecordView(Records(Rebuild(d), r)) == RecordView(Records(d, r)) <==> OnlyMaps(Records(d, r))
    ensures Records(Rebuild(d), r) == map[] <==> Records(d, r) == map[]
  {
    RecordSurvives(Records(d, r));
  }

  lemma TidyByRecords(d: Doc)
    ensures Tidy(d) <==> Shown(d.notifications) && forall r: RecordMap :: r != Outbox ==> OnlyMaps(Records(d, r))
  {
    if forall r: RecordMap :: r != Outbox ==> OnlyMaps(Records(d, r)) {
      forall r | r in d.records && r != Outbox ensures OnlyMaps(d.records[r]) {
        assert OnlyMaps(Records(d, r));
      }
    }
  }
}
