/** The decode kernel's `materialize`: an inert JSON copy of a finite JavaScript object graph, which
    may share objects and may be cyclic. */
module Materialize {
  import opened Options
  import opened Utf16Text
  import opened JsonValues
  import IssuePaths

  type ObjectId = nat

  datatype Number = NotFinite | NegativeZero | Finite(n: real)

  datatype Value =
    | Null
    | Boolean(b: bool)
    | StringValue(s: Text)
    | NumberValue(n: Number)
    | Reference(id: ObjectId)
    | Unsupported

  datatype Key = Name(text: Text) | SymbolKey

  /** An own property. Reading an `Unreadable` one throws, as a proxy may. */
  datatype Property = Data(value: Value) | Accessor | Unreadable

  datatype Prototype = ObjectPrototype | ArrayPrototype | NullPrototype | OtherPrototype

  datatype ArrayTest = IsArray | NotArray | TestThrows

  datatype Object = Object(
    reflects: bool,             // whether reading own keys and prototype returns normally
    keys: seq<Key>,
    prototype: Prototype,
    arrayTest: ArrayTest,
    lengthReads: bool,          // whether reading `length` returns normally
    length: nat,
    properties: map<Text, Property>)

  type Graph = map<ObjectId, Object>

  predicate InGraph(g: Graph, v: Value) {
    v.Reference? ==> v.id in g
  }

  /** Every reference leads to an object of the graph. */
  ghost predicate Closed(g: Graph) {
    forall o, k | o in g && k in g[o].properties && g[o].properties[k].Data? :: InGraph(g, g[o].properties[k].value)
  }

  datatype Reason =
    | LoneSurrogate | NonFiniteNumber | UnsupportedType | CyclicReference | ReflectionFailed | SymbolKeyFound
    | CustomPrototype | SparseArray | AccessorProperty | ArrayExtraProperty

  datatype Result<+T> = Ok(value: T) | Fail(path: Text, reason: Reason)

  const LENGTH: Text := [0x6C, 0x65, 0x6E, 0x67, 0x74, 0x68]

  predicate IsArrayIndex(key: Text, length: nat) {
    exists i | 0 <= i < length :: Decimal(i) == key
  }

  // ---------------------------------------------------------------- what the walk computes

  function Materialized(g: Graph, value: Value, path: Text, active: set<ObjectId>): Result<Json>
    requires Closed(g) && InGraph(g, value)
    decreases g.Keys - active, 0, 0
  {
    match value
    case Null => Ok(JNull)
    case Boolean(b) => Ok(JBool(b))
    case StringValue(s) => if PassesSurrogateScan(s) then Ok(JString(s)) else Fail(path, LoneSurrogate)
    case NumberValue(NotFinite) => Fail(path, NonFiniteNumber)
    case NumberValue(NegativeZero) => Ok(JNumber(0.0))
    case NumberValue(Finite(n)) => Ok(JNumber(n))
    case Unsupported => Fail(path, UnsupportedType)
    case Reference(o) =>
      if o in active then Fail(path, CyclicReference)
      else
        assert g.Keys - (active + {o}) < g.Keys - active by { assert o in g.Keys - active; }
        MaterializedObject(g, g[o], path, active + {o})
  }

  function MaterializedObject(g: Graph, owner: Object, path: Text, active: set<ObjectId>): Result<Json>
    requires Closed(g) && owner in g.Values
    decreases g.Keys - active, 2, 0
  {
    if !owner.reflects then Fail(path, ReflectionFailed)
    else match FirstBadKey(owner.keys)
      case Fail(_, reason) => Fail(path, reason)
      case Ok(_) =>
        match owner.arrayTest
        case TestThrows => Fail(path, ReflectionFailed)
        case IsArray =>
          if owner.prototype != ArrayPrototype then Fail(path, CustomPrototype)
          else if !owner.lengthReads then Fail(path, ReflectionFailed)
          else (match MaterializedItems(g, owner, path, active, 0)
                case Fail(p, reason) => Fail(p, reason)
                case Ok(items) =>
                  (match FirstExtraKey(owner.keys, owner.length)
                   case Fail(key, reason) => Fail(IssuePaths.ChildPath(path, key), reason)
                   case Ok(_) => Ok(JArray(items))))
        case NotArray =>
          if owner.prototype !in {ObjectPrototype, NullPrototype} then Fail(path, CustomPrototype)
          else match MaterializedMembers(g, owner, path, active, 0)
               case Fail(p, reason) => Fail(p, reason)
               case Ok(members) => Ok(JObject(members))
  }

  function FirstBadKey(keys: seq<Key>): (r: Result<()>)
    ensures r.Ok? <==> forall i | 0 <= i < |keys| :: keys[i].Name? && PassesSurrogateScan(keys[i].text)
  {
    if keys == [] then Ok(())
    else if keys[0].SymbolKey? then Fail([], SymbolKeyFound)
    else if !PassesSurrogateScan(keys[0].text) then Fail([], LoneSurrogate)
    else FirstBadKey(keys[1..])
  }

  /** The first key that is neither `length` nor an index below the length; the failure carries it. */
  function FirstExtraKey(keys: seq<Key>, length: nat): (r: Result<()>)
    ensures r.Ok? <==> forall i | 0 <= i < |keys| && keys[i].Name? ::
                         keys[i].text == LENGTH || IsArrayIndex(keys[i].text, length)
  {
    if keys == [] then Ok(())
    else if keys[0].Name? && keys[0].text != LENGTH && !IsArrayIndex(keys[0].text, length)
    then Fail(keys[0].text, ArrayExtraProperty)
    else FirstExtraKey(keys[1..], length)
  }

  function MaterializedItems(g: Graph, owner: Object, path: Text, active: set<ObjectId>, index: nat): Result<seq<Json>>
    requires Closed(g) && owner in g.Values && index <= owner.length
    decreases g.Keys - active, 1, owner.length - index
  {
    if index == owner.length then Ok([])
    else
      var key := Decimal(index);
      var here := IssuePaths.ChildPath(path, key);
      if key !in owner.properties then Fail(here, SparseArray)
      else match owner.properties[key]
           case Unreadable => Fail(here, ReflectionFailed)
           case Accessor => Fail(here, AccessorProperty)
           case Data(v) =>
             match Materialized(g, v, here, active)
             case Fail(p, reason) => Fail(p, reason)
             case Ok(item) =>
               match MaterializedItems(g, owner, path, active, index + 1)
               case Fail(p, reason) => Fail(p, reason)
               case Ok(items) => Ok([item] + items)
  }

  function MaterializedMembers(g: Graph, owner: Object, path: Text, active: set<ObjectId>, index: nat): Result<seq<Member>>
    requires Closed(g) && owner in g.Values && index <= |owner.keys|
    requires forall i | 0 <= i < |owner.keys| :: owner.keys[i].Name?
    decreases g.Keys - active, 1, |owner.keys| - index
  {
    if index == |owner.keys| then Ok([])
    else
      var key := owner.keys[index].text;
      var here := IssuePaths.ChildPath(path, key);
      if key !in owner.properties || owner.properties[key].Accessor? then Fail(here, AccessorProperty)
      else match owner.properties[key]
           case Data(v) =>
             (match Materialized(g, v, here, active)
              case Fail(p, reason) => Fail(p, reason)
              case Ok(json) =>
                (match MaterializedMembers(g, owner, path, active, index + 1)
                 case Fail(p, reason) => Fail(p, reason)
                 case Ok(members) => Ok([Member(key, json)] + members)))
           case _ => Fail(here, ReflectionFailed)
  }

  // ---------------------------------------------------------------- independent meaning: unfolding

  /** The local conditions on one object: everything but the values it holds. */
  predicate Regular(owner: Object) {
    && owner.reflects
    && (forall i | 0 <= i < |owner.keys| :: owner.keys[i].Name? && PassesSurrogateScan(owner.keys[i].text))
    && match owner.arrayTest
       case TestThrows => false
       case IsArray =>
         && owner.prototype == ArrayPrototype && owner.lengthReads
         && (forall i | 0 <= i < owner.length :: HoldsData(owner, Decimal(i)))
         && (forall i | 0 <= i < |owner.keys| :: owner.keys[i].text == LENGTH || IsArrayIndex(owner.keys[i].text, owner.length))
       case NotArray =>
         && owner.prototype in {ObjectPrototype, NullPrototype}
         && (forall i | 0 <= i < |owner.keys| :: HoldsData(owner, owner.keys[i].text))
  }

  predicate HoldsData(owner: Object, key: Text) {
    key in owner.properties && owner.properties[key].Data?
  }

  function ChildCount(owner: Object): nat {
    if owner.arrayTest.IsArray? then owner.length else |owner.keys|
  }

  function Child(owner: Object, i: nat): Value
    requires Regular(owner) && i < ChildCount(owner)
  {
    if owner.arrayTest.IsArray? then owner.properties[Decimal(i)].value else owner.properties[owner.keys[i].text].value
  }

  function Assemble(owner: Object, children: seq<Json>): Json
    requires Regular(owner) && |children| == ChildCount(owner)
  {
    if owner.arrayTest.IsArray? then JArray(children)
    else JObject(seq(|children|, i requires 0 <= i < |children| => Member(owner.keys[i].text, children[i])))
  }

  /** The tree below `value`, if it has height at most `height` and every object in it is regular.
      This knows nothing of paths or of objects being visited. */
  function Unfold(g: Graph, value: Value, height: nat): Option<Json>
    requires Closed(g) && InGraph(g, value)
    decreases height, 0
  {
    match value
    case Null => Some(JNull)
    case Boolean(b) => Some(JBool(b))
    case StringValue(s) => if PassesSurrogateScan(s) then Some(JString(s)) else None
    case NumberValue(NotFinite) => None
    case NumberValue(NegativeZero) => Some(JNumber(0.0))
    case NumberValue(Finite(n)) => Some(JNumber(n))
    case Unsupported => None
    case Reference(o) =>
      if height == 0 || !Regular(g[o]) then None
      else match UnfoldChildren(g, g[o], height - 1, ChildCount(g[o]))
           case Some(children) => Some(Assemble(g[o], children))
           case None => None
  }

  /** The unfoldings of the first `count` children. */
  function UnfoldChildren(g: Graph, owner: Object, height: nat, count: nat): (r: Option<seq<Json>>)
    requires Closed(g) && owner in g.Values && Regular(owner) && count <= ChildCount(owner)
    ensures r.Some? ==> |r.value| == count
    decreases height, 1, count
  {
    if count == 0 then Some([])
    else match (UnfoldChildren(g, owner, height, count - 1), Unfold(g, Child(owner, count - 1), height))
         case (Some(before), Some(last)) => Some(before + [last])
         case _ => None
  }

  lemma {:induction false} UnfoldChildrenEach(g: Graph, owner: Object, height: nat, count: nat)
    requires Closed(g) && owner in g.Values && Regular(owner) && count <= ChildCount(owner)
    ensures UnfoldChildren(g, owner, height, count).Some? <==>
            forall i | 0 <= i < count :: Unfold(g, Child(owner, i), height).Some?
    ensures UnfoldChildren(g, owner, height, count).Some? ==>
            forall i | 0 <= i < count ::
              UnfoldChildren(g, owner, height, count).value[i] == Unfold(g, Child(owner, i), height).value
    decreases count
  {
    if count > 0 {
      UnfoldChildrenEach(g, owner, height, count - 1);
    }
  }

  /** A tree of bounded height is the same tree under any larger bound. */
  lemma {:induction false} UnfoldIsStable(g: Graph, value: Value, height: nat, more: nat)
    requires Closed(g) && InGraph(g, value) && height <= more
    requires Unfold(g, value, height).Some?
    ensures Unfold(g, value, more) == Unfold(g, value, height)
    decreases height, 0
  {
    if value.Reference? {
      UnfoldChildrenAreStable(g, g[value.id], height - 1, more - 1, ChildCount(g[value.id]));
    }
  }

  lemma {:induction false} UnfoldChildrenAreStable(g: Graph, owner: Object, height: nat, more: nat, count: nat)
    requires Closed(g) && owner in g.Values && Regular(owner) && count <= ChildCount(owner) && height <= more
    requires UnfoldChildren(g, owner, height, count).Some?
    ensures UnfoldChildren(g, owner, more, count) == UnfoldChildren(g, owner, height, count)
    decreases height, 1, count
  {
    if count > 0 {
      UnfoldChildrenAreStable(g, owner, height, more, count - 1);
      UnfoldIsStable(g, Child(owner, count - 1), height, more);
    }
  }

  // ---------------------------------------------------------------- success is a finite unfolding

  lemma {:induction false} ItemsUnfold(g: Graph, owner: Object, path: Text, active: set<ObjectId>, index: nat)
    requires Closed(g) && owner in g.Values && owner.arrayTest.IsArray? && index <= owner.length
    ensures MaterializedItems(g, owner, path, active, index).Ok? <==>
            forall i | index <= i < owner.length ::
              HoldsData(owner, Decimal(i)) && ItemAt(g, owner, path, active, i).Ok?
    ensures MaterializedItems(g, owner, path, active, index).Ok? ==>
            var items := MaterializedItems(g, owner, path, active, index).value;
            |items| == owner.length - index &&
            forall i | index <= i < owner.length :: items[i - index] == ItemAt(g, owner, path, active, i).value
    decreases owner.length - index
  {
    if index < owner.length {
      ItemsUnfold(g, owner, path, active, index + 1);
      assert ItemAt(g, owner, path, active, index).Ok? ==> HoldsData(owner, Decimal(index));
    }
  }

  function ItemAt(g: Graph, owner: Object, path: Text, active: set<ObjectId>, i: nat): Result<Json>
    requires Closed(g) && owner in g.Values
  {
    ChildAt(g, owner, path, active, Decimal(i))
  }

  function ChildAt(g: Graph, owner: Object, path: Text, active: set<ObjectId>, key: Text): Result<Json>
    requires Closed(g) && owner in g.Values
  {
    if HoldsData(owner, key) then Materialized(g, owner.properties[key].value, IssuePaths.ChildPath(path, key), active)
    else Fail(path, AccessorProperty)
  }

  lemma {:induction false} MembersUnfold(g: Graph, owner: Object, path: Text, active: set<ObjectId>, index: nat)
    requires Closed(g) && owner in g.Values && index <= |owner.keys|
    requires forall i | 0 <= i < |owner.keys| :: owner.keys[i].Name?
    ensures MaterializedMembers(g, owner, path, active, index).Ok? <==>
            forall i | index <= i < |owner.keys| :: ChildAt(g, owner, path, active, owner.keys[i].text).Ok?
    ensures MaterializedMembers(g, owner, path, active, index).Ok? ==>
            var members := MaterializedMembers(g, owner, path, active, index).value;
            |members| == |owner.keys| - index &&
            forall i | index <= i < |owner.keys| ::
              members[i - index] == Member(owner.keys[i].text, ChildAt(g, owner, path, active, owner.keys[i].text).value)
    decreases |owner.keys| - index
  {
    if index < |owner.keys| {
      MembersUnfold(g, owner, path, active, index + 1);
    }
  }

  function ChildPathOf(owner: Object, path: Text, i: nat): Text
    requires Regular(owner) && i < ChildCount(owner)
  {
    IssuePaths.ChildPath(path, if owner.arrayTest.IsArray? then Decimal(i) else owner.keys[i].text)
  }

  ghost predicate ChildrenOk(g: Graph, owner: Object, path: Text, active: set<ObjectId>)
    requires Closed(g) && owner in g.Values && Regular(owner)
  {
    forall i | 0 <= i < ChildCount(owner) :: Materialized(g, Child(owner, i), ChildPathOf(owner, path, i), active).Ok?
  }

  ghost function ChildJsons(g: Graph, owner: Object, path: Text, active: set<ObjectId>): (r: seq<Json>)
    requires Closed(g) && owner in g.Values && Regular(owner) && ChildrenOk(g, owner, path, active)
  {
    seq(ChildCount(owner), i requires 0 <= i < ChildCount(owner) =>
      Materialized(g, Child(owner, i), ChildPathOf(owner, path, i), active).value)
  }

  /** An object is materialized exactly when it is regular and each child is; then child by child. */
  lemma ObjectChildByChild(g: Graph, owner: Object, path: Text, active: set<ObjectId>)
    requires Closed(g) && owner in g.Values
    ensures MaterializedObject(g, owner, path, active).Ok? <==> Regular(owner) && ChildrenOk(g, owner, path, active)
    ensures MaterializedObject(g, owner, path, active).Ok? ==>
            MaterializedObject(g, owner, path, active).value == Assemble(owner, ChildJsons(g, owner, path, active))
  {
    if owner.reflects && FirstBadKey(owner.keys).Ok? {
      if owner.arrayTest.IsArray? {
        ArrayChildByChild(g, owner, path, active);
      } else if owner.arrayTest.NotArray? {
        PlainObjectChildByChild(g, owner, path, active);
      }
    }
  }

  lemma ArrayChildByChild(g: Graph, owner: Object, path: Text, active: set<ObjectId>)
    requires Closed(g) && owner in g.Values
    requires owner.reflects && FirstBadKey(owner.keys).Ok? && owner.arrayTest.IsArray?
    ensures MaterializedObject(g, owner, path, active).Ok? <==> Regular(owner) && ChildrenOk(g, owner, path, active)
    ensures MaterializedObject(g, owner, path, active).Ok? ==>
            MaterializedObject(g, owner, path, active).value == Assemble(owner, ChildJsons(g, owner, path, active))
  {
    ItemsUnfold(g, owner, path, active, 0);
    if MaterializedObject(g, owner, path, active).Ok? {
      assert forall i | 0 <= i < owner.length :: HoldsData(owner, Decimal(i));
      assert Regular(owner);
    }
    if Regular(owner) {
      forall i | 0 <= i < owner.length
        ensures ItemAt(g, owner, path, active, i) ==
                Materialized(g, Child(owner, i), ChildPathOf(owner, path, i), active)
      {
        assert HoldsData(owner, Decimal(i));
      }
      if MaterializedObject(g, owner, path, active).Ok? {
        assert ChildrenOk(g, owner, path, active);
        assert MaterializedItems(g, owner, path, active, 0).value == ChildJsons(g, owner, path, active);
      }
    }
  }

  lemma PlainObjectChildByChild(g: Graph, owner: Object, path: Text, active: set<ObjectId>)
    requires Closed(g) && owner in g.Values
    requires owner.reflects && FirstBadKey(owner.keys).Ok? && owner.arrayTest.NotArray?
    ensures MaterializedObject(g, owner, path, active).Ok? <==> Regular(owner) && ChildrenOk(g, owner, path, active)
    ensures MaterializedObject(g, owner, path, active).Ok? ==>
            MaterializedObject(g, owner, path, active).value == Assemble(owner, ChildJsons(g, owner, path, active))
  {
    MembersUnfold(g, owner, path, active, 0);
    if MaterializedObject(g, owner, path, active).Ok? {
      assert forall i | 0 <= i < |owner.keys| :: ChildAt(g, owner, path, active, owner.keys[i].text).Ok?;
      assert Regular(owner);
    }
    if Regular(owner) {
      forall i | 0 <= i < |owner.keys|
        ensures ChildAt(g, owner, path, active, owner.keys[i].text) ==
                Materialized(g, Child(owner, i), ChildPathOf(owner, path, i), active)
      {}
      if MaterializedObject(g, owner, path, active).Ok? {
        assert ChildrenOk(g, owner, path, active);
        assert MaterializedMembers(g, owner, path, active, 0).value == Assemble(owner, ChildJsons(g, owner, path, active)).members;
      }
    }
  }

  // ---------------------------------------------------------------- both directions

  /** What materializes has that very unfolding; the unvisited objects bound its height. */
  lemma {:induction false} MaterializedUnfolds(g: Graph, value: Value, path: Text, active: set<ObjectId>)
    requires Closed(g) && InGraph(g, value) && active <= g.Keys
    requires Materialized(g, value, path, active).Ok?
    ensures Unfold(g, value, |g.Keys - active|) == Some(Materialized(g, value, path, active).value)
    decreases |g.Keys - active|, 0
  {
    if value.Reference? {
      var o := value.id;
      var active' := active + {o};
      OneMoreActive(g, active, o);
      ObjectChildByChild(g, g[o], path, active');
      ChildrenUnfold(g, g[o], path, active');
    }
  }

  lemma OneMoreActive(g: Graph, active: set<ObjectId>, o: ObjectId)
    requires o in g && o !in active
    ensures |g.Keys - active| == |g.Keys - (active + {o})| + 1
  {
    assert g.Keys - active == (g.Keys - (active + {o})) + {o};
  }

  lemma {:induction false} ChildrenUnfold(g: Graph, owner: Object, path: Text, active: set<ObjectId>)
    requires Closed(g) && owner in g.Values && Regular(owner) && active <= g.Keys
    requires ChildrenOk(g, owner, path, active)
    ensures UnfoldChildren(g, owner, |g.Keys - active|, ChildCount(owner)) == Some(ChildJsons(g, owner, path, active))
    decreases |g.Keys - active|, 1
  {
    var height, n := |g.Keys - active|, ChildCount(owner);
    forall i | 0 <= i < n
      ensures Unfold(g, Child(owner, i), height) == Some(ChildJsons(g, owner, path, active)[i])
    {
      MaterializedUnfolds(g, Child(owner, i), ChildPathOf(owner, path, i), active);
    }
    UnfoldChildrenEach(g, owner, height, n);
    assert UnfoldChildren(g, owner, height, n).value == ChildJsons(g, owner, path, active);
  }

  /** The least height at which a finite tree unfolds. */
  lemma {:induction false} LeastHeight(g: Graph, value: Value, height: nat) returns (below: nat)
    requires Closed(g) && InGraph(g, value) && value.Reference?
    requires Unfold(g, value, height).Some?
    ensures below < height
    ensures Unfold(g, value, below + 1) == Unfold(g, value, height)
    ensures Unfold(g, value, below).None?
  {
    if Unfold(g, value, height - 1).Some? {
      UnfoldIsStable(g, value, height - 1, height);
      below := LeastHeight(g, value, height - 1);
    } else {
      below := height - 1;
    }
  }

  /** Nothing on the current path unfolds within `height`: an object there is strictly taller. */
  ghost predicate PathIsTaller(g: Graph, active: set<ObjectId>, height: nat)
    requires Closed(g) && active <= g.Keys
  {
    forall a | a in active :: IsTaller(g, a, height)
  }

  ghost predicate IsTaller(g: Graph, o: ObjectId, height: nat)
    requires Closed(g) && o in g
  {
    Unfold(g, Reference(o), height).None?
  }

  lemma StepDownThePath(g: Graph, active: set<ObjectId>, o: ObjectId, height: nat, below: nat)
    requires Closed(g) && active <= g.Keys && o in g && PathIsTaller(g, active, height)
    requires below < height && IsTaller(g, o, below)
    ensures PathIsTaller(g, active + {o}, below)
  {
    forall a | a in active ensures IsTaller(g, a, below) {
      assert IsTaller(g, a, height);
      if !IsTaller(g, a, below) {
        UnfoldIsStable(g, Reference(a), below, height);
        assert false;
      }
    }
  }

  lemma RegularObjectMaterializes(g: Graph, value: Value, path: Text, active: set<ObjectId>)
    requires Closed(g) && InGraph(g, value) && value.Reference? && active <= g.Keys && value.id !in active
    requires Regular(g[value.id]) && ChildrenOk(g, g[value.id], path, active + {value.id})
    ensures Materialized(g, value, path, active).Ok?
  {
    ObjectChildByChild(g, g[value.id], path, active + {value.id});
  }

  /** An object that unfolds within the height of the path is not on it; from its least height down the
      path with it is taller still. */
  lemma ActivePathIsTaller(g: Graph, value: Value, active: set<ObjectId>, height: nat) returns (below: nat)
    requires Closed(g) && InGraph(g, value) && value.Reference? && active <= g.Keys
    requires Unfold(g, value, height).Some? && PathIsTaller(g, active, height)
    ensures value.id in g && value.id !in active && |g.Keys - (active + {value.id})| < |g.Keys - active|
    ensures below < height && PathIsTaller(g, active + {value.id}, below)
    ensures Regular(g[value.id]) && UnfoldChildren(g, g[value.id], below, ChildCount(g[value.id])).Some?
  {
    below := LeastHeight(g, value, height);
    UnfoldedObject(g, value, below);
    assert value.id !in active by { assert !IsTaller(g, value.id, height); }
    OneMoreActive(g, active, value.id);
    StepDownThePath(g, active, value.id, height, below);
  }

  lemma UnfoldedObject(g: Graph, value: Value, below: nat)
    requires Closed(g) && InGraph(g, value) && value.Reference? && Unfold(g, value, below + 1).Some?
    ensures value.id in g && Regular(g[value.id]) && UnfoldChildren(g, g[value.id], below, ChildCount(g[value.id])).Some?
  {}

  /** What unfolds within a height below that of the whole path materializes: the side condition
      keeps the walk from meeting an object it is already visiting. */
  lemma {:induction false} UnfoldingMaterializes(g: Graph, value: Value, path: Text, active: set<ObjectId>, height: nat)
    requires Closed(g) && InGraph(g, value) && active <= g.Keys
    requires Unfold(g, value, height).Some? && PathIsTaller(g, active, height)
    ensures Materialized(g, value, path, active).Ok?
    decreases |g.Keys - active|, 0
  {
    if value.Reference? {
      var o := value.id;
      var below := ActivePathIsTaller(g, value, active, height);
      UnfoldingChildrenMaterialize(g, g[o], path, active + {o}, below);
      RegularObjectMaterializes(g, value, path, active);
    }
  }

  lemma {:induction false} UnfoldingChildrenMaterialize(g: Graph, owner: Object, path: Text, active: set<ObjectId>, height: nat)
    requires Closed(g) && owner in g.Values && Regular(owner) && active <= g.Keys
    requires UnfoldChildren(g, owner, height, ChildCount(owner)).Some? && PathIsTaller(g, active, height)
    ensures ChildrenOk(g, owner, path, active)
    decreases |g.Keys - active|, 1
  {
    UnfoldChildrenEach(g, owner, height, ChildCount(owner));
    forall i | 0 <= i < ChildCount(owner)
      ensures Materialized(g, Child(owner, i), ChildPathOf(owner, path, i), active).Ok?
    {
      UnfoldingMaterializes(g, Child(owner, i), ChildPathOf(owner, path, i), active, height);
    }
  }

  /** `materialize` succeeds exactly on values whose unfolding is finite, with exactly that unfolding,
      whether or not objects are shared. */
  lemma MaterializesExactlyFiniteUnfoldings(g: Graph, value: Value, path: Text, json: Json)
    requires Closed(g) && InGraph(g, value)
    ensures Materialized(g, value, path, {}) == Ok(json) <==> exists height: nat :: Unfold(g, value, height) == Some(json)
  {
    if Materialized(g, value, path, {}).Ok? {
      MaterializedUnfolds(g, value, path, {});
    }
    if height: nat :| Unfold(g, value, height) == Some(json) {
      UnfoldingMaterializes(g, value, path, {}, height);
      MaterializedUnfolds(g, value, path, {});
      var other := |g.Keys - {}|;
      if height <= other {
        UnfoldIsStable(g, value, height, other);
      } else {
        UnfoldIsStable(g, value, other, height);
      }
    }
  }

  // ---------------------------------------------------------------- the walk itself

  /** The set of objects on the current path, shared by the recursive calls. */
  class ActiveSet {
    var members: set<ObjectId>

    constructor ()
      ensures members == {}
    {
      members := {};
    }
  }

  /** `materialize`: terminates on every finite graph and leaves the active set as it found it. */
  method MaterializeValue(g: Graph, value: Value, path: Text, active: ActiveSet) returns (r: Result<Json>)
    requires Closed(g) && InGraph(g, value)
    modifies active
    ensures r == Materialized(g, value, path, old(active.members))
    ensures active.members == old(active.members)
    decreases g.Keys - active.members, 0
  {
    match value
    case Null => return Ok(JNull);
    case Boolean(b) => return Ok(JBool(b));
    case StringValue(s) =>
      var lone := HasLoneSurrogate(s);
      return if lone then Fail(path, LoneSurrogate) else Ok(JString(s));
    case NumberValue(NotFinite) => return Fail(path, NonFiniteNumber);
    case NumberValue(NegativeZero) => return Ok(JNumber(0.0));
    case NumberValue(Finite(n)) => return Ok(JNumber(n));
    case Unsupported => return Fail(path, UnsupportedType);
    case Reference(o) =>
      if o in active.members { return Fail(path, CyclicReference); }
      ghost var before := active.members;
      active.members := active.members + {o};
      assert g.Keys - active.members < g.Keys - before by { assert o in g.Keys - before; }
      r := MaterializeObject(g, g[o], path, active);
      active.members := active.members - {o};
  }

  method MaterializeObject(g: Graph, owner: Object, path: Text, active: ActiveSet) returns (r: Result<Json>)
    requires Closed(g) && owner in g.Values
    modifies active
    ensures r == MaterializedObject(g, owner, path, old(active.members))
    ensures active.members == old(active.members)
    decreases g.Keys - active.members, 2
  {
    if !owner.reflects { return Fail(path, ReflectionFailed); }
    for n := 0 to |owner.keys|
      invariant active.members == old(active.members)
      invariant FirstBadKey(owner.keys) == FirstBadKey(owner.keys[n..])
    {
      var key := owner.keys[n];
      if key.SymbolKey? { return Fail(path, SymbolKeyFound); }
      var lone := HasLoneSurrogate(key.text);
      if lone { return Fail(path, LoneSurrogate); }
    }
    match owner.arrayTest
    case TestThrows => return Fail(path, ReflectionFailed);
    case IsArray =>
      if owner.prototype != ArrayPrototype { return Fail(path, CustomPrototype); }
      if !owner.lengthReads { return Fail(path, ReflectionFailed); }
      r := MaterializeArray(g, owner, path, active);
    case NotArray =>
      if owner.prototype != ObjectPrototype && owner.prototype != NullPrototype { return Fail(path, CustomPrototype); }
      r := MaterializePlain(g, owner, path, active);
  }

  method MaterializeArray(g: Graph, owner: Object, path: Text, active: ActiveSet) returns (r: Result<Json>)
    requires Closed(g) && owner in g.Values
    requires owner.reflects && FirstBadKey(owner.keys).Ok? && owner.arrayTest.IsArray?
    requires owner.prototype == ArrayPrototype && owner.lengthReads
    modifies active
    ensures r == MaterializedObject(g, owner, path, old(active.members))
    ensures active.members == old(active.members)
    decreases g.Keys - active.members, 1
  {
    var output: seq<Json> := [];
    assert forall items: seq<Json> :: output + items == items;
    for index := 0 to owner.length
      invariant active.members == old(active.members)
      invariant MaterializedItems(g, owner, path, active.members, 0) ==
                match MaterializedItems(g, owner, path, active.members, index)
                case Fail(p, reason) => Fail(p, reason)
                case Ok(items) => Ok(output + items)
    {
      var key := Decimal(index);
      var here := IssuePaths.ChildPath(path, key);
      if key !in owner.properties { return Fail(here, SparseArray); }
      var descriptor := owner.properties[key];
      if descriptor.Unreadable? { return Fail(here, ReflectionFailed); }
      if descriptor.Accessor? { return Fail(here, AccessorProperty); }
      var item := MaterializeValue(g, descriptor.value, here, active);
      if item.Fail? { return Fail(item.path, item.reason); }
      ghost var rest := MaterializedItems(g, owner, path, active.members, index + 1);
      assert rest.Ok? ==> output + ([item.value] + rest.value) == (output + [item.value]) + rest.value;
      output := output + [item.value];
    }
    assert output + [] == output;
    for n := 0 to |owner.keys|
      invariant active.members == old(active.members)
      invariant FirstExtraKey(owner.keys, owner.length) == FirstExtraKey(owner.keys[n..], owner.length)
    {
      var key := owner.keys[n].text;
      if key != LENGTH && !IsArrayIndex(key, owner.length) {
        return Fail(IssuePaths.ChildPath(path, key), ArrayExtraProperty);
      }
    }
    return Ok(JArray(output));
  }

  method MaterializePlain(g: Graph, owner: Object, path: Text, active: ActiveSet) returns (r: Result<Json>)
    requires Closed(g) && owner in g.Values
    requires owner.reflects && FirstBadKey(owner.keys).Ok? && owner.arrayTest.NotArray?
    requires owner.prototype in {ObjectPrototype, NullPrototype}
    modifies active
    ensures r == MaterializedObject(g, owner, path, old(active.members))
    ensures active.members == old(active.members)
    decreases g.Keys - active.members, 1
  {
    var output: seq<Member> := [];
    assert forall members: seq<Member> :: output + members == members;
    for n := 0 to |owner.keys|
      invariant active.members == old(active.members)
      invariant MaterializedMembers(g, owner, path, active.members, 0) ==
                match MaterializedMembers(g, owner, path, active.members, n)
                case Fail(p, reason) => Fail(p, reason)
                case Ok(members) => Ok(output + members)
    {
      var key := owner.keys[n].text;
      var here := IssuePaths.ChildPath(path, key);
      if key !in owner.properties { return Fail(here, AccessorProperty); }
      var descriptor := owner.properties[key];
      if descriptor.Unreadable? { return Fail(here, ReflectionFailed); }
      if descriptor.Accessor? { return Fail(here, AccessorProperty); }
      var value := MaterializeValue(g, descriptor.value, here, active);
      if value.Fail? { return Fail(value.path, value.reason); }
      ghost var rest := MaterializedMembers(g, owner, path, active.members, n + 1);
      var member := Member(key, value.value);
      assert rest.Ok? ==> output + ([member] + rest.value) == (output + [member]) + rest.value;
      output := output + [member];
    }
    assert output + [] == output;
    return Ok(JObject(output));
  }
}
