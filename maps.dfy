/** The editor's map registry (OpenRubyRMK/lib/open_ruby_rmk/map.rb): maps
    with unique ids, a parent/children hierarchy and a width x height x depth
    table of mapset tiles. The class-level `@maps` list becomes an explicit
    `Registry` object; loading from and saving to files is not modelled. */
module Maps {
  import opened Ruby

  /** The position `[x, y]` of a field on the mapset. */
  datatype Tile = Tile(x: int, y: int)

  /** `@table[x][y][z]`: nested Ruby arrays whose innermost slots may be nil. */
  type Table = seq<seq<seq<Option<Tile>>>>

  /** Whether `Array.new(width){Array.new(height){Array.new(depth){[0, 0]}}}`
      raises ArgumentError: an inner size is only evaluated when the block
      around it runs, that is when the outer size is positive. */
  predicate NegativeSizeReached(width: int, height: int, depth: int) {
    width < 0 || (width > 0 && (height < 0 || (height > 0 && depth < 0)))
  }

  /** The table a new map starts with: every cell is `[0, 0]`. */
  function BlankTable(width: int, height: int, depth: int): (t: Table)
    requires !NegativeSizeReached(width, height, depth)
    ensures |t| == width
    ensures forall x :: 0 <= x < width ==> |t[x]| == height
    ensures forall x, y :: 0 <= x < width && 0 <= y < height ==> |t[x][y]| == depth
    ensures forall x, y, z :: 0 <= x < width && 0 <= y < height && 0 <= z < depth ==>
      t[x][y][z] == Some(Tile(0, 0))
  {
    if width == 0 then []
    else seq(width, _ => if height == 0 then [] else seq(height, _ => seq(depth, _ => Some(Tile(0, 0)))))
  }

  function IdsOf(ms: seq<Map>): (ids: seq<int>)
    ensures |ids| == |ms|
    ensures forall k :: 0 <= k < |ms| ==> ids[k] == ms[k].id
  {
    seq(|ms|, k requires 0 <= k < |ms| => ms[k].id)
  }

  /** `maps.find{|map| map.id == id}`: the first map with that id. */
  function Find(ms: seq<Map>, id: int): (r: Option<Map>)
    ensures r.None? <==> forall k :: 0 <= k < |ms| ==> ms[k].id != id
    ensures r.Some? ==> exists k :: 0 <= k < |ms| && ms[k] == r.value && r.value.id == id &&
                                  (forall j :: 0 <= j < k ==> ms[j].id != id)
  {
    if ms == [] then None
    else if ms[0].id == id then Some(ms[0])
    else
      var rest := Find(ms[1..], id);
      if rest.Some? then
        ghost var k :| 0 <= k < |ms| - 1 && ms[1..][k] == rest.value && rest.value.id == id &&
                       (forall j :: 0 <= j < k ==> ms[1..][j].id != id);
        assert ms[k + 1] == rest.value && forall j :: 0 <= j < k + 1 ==> ms[j].id != id;
        rest
      else rest
  }

  class Map {
    /** The unique id; never changes. */
    const id: int
    /** The parent map, nil for a map at the top of the hierarchy. */
    const parent: Map?
    /** All ancestors, the one without a parent first and the direct parent last. */
    ghost const ancestors: seq<Map>
    var name: string
    var mapset: string
    var table: Table
    /** `@children_ids`: None (nil) until `initialize` reaches line 179,
        which a map whose table raised never does. */
    var childrenIds: Option<seq<int>>

    /** `ancestors` follows the parent links up to a map without a parent. */
    ghost predicate Chained()
      decreases |ancestors|
    {
      if parent == null then ancestors == []
      else ancestors != [] && ancestors == parent.ancestors + [parent] && parent.Chained()
    }

    constructor (id: int, name: string, mapset: string, table: Table, parent: Map?)
      requires parent != null ==> parent.Chained()
      ensures this.id == id && this.name == name && this.mapset == mapset
      ensures this.table == table && this.parent == parent && childrenIds == None
      ensures ancestors == (if parent == null then [] else parent.ancestors + [parent])
      ensures Chained()
    {
      this.id := id;
      this.name := name;
      this.mapset := mapset;
      this.table := table;
      this.parent := parent;
      this.ancestors := if parent == null then [] else parent.ancestors + [parent];
      childrenIds := None;
    }

    /** Each ancestor is the parent of the next one and the first has no parent. */
    lemma {:induction false} AncestorLinks(k: nat)
      requires Chained()
      requires k < |ancestors|
      ensures ancestors[k].parent == (if k == 0 then null else ancestors[k - 1])
      decreases |ancestors|
    {
      if k < |ancestors| - 1 {
        assert ancestors[k] == parent.ancestors[k];
        parent.AncestorLinks(k);
        if k > 0 {
          assert ancestors[k - 1] == parent.ancestors[k - 1];
        }
      } else {
        assert ancestors[k] == parent;
        if parent.parent == null {
          assert parent.ancestors == [];
        } else {
          assert parent.ancestors[|parent.ancestors| - 1] == parent.parent;
          assert ancestors[k - 1] == parent.ancestors[k - 1];
        }
      }
    }

    /** `parent_ids`: walks the parent links and returns the ancestor ids,
        the top-level one first and the direct parent last. */
    method ParentIds() returns (ids: seq<int>)
      requires Chained()
      ensures ids == IdsOf(ancestors)
      ensures ids == [] <==> parent == null
      ensures parent != null ==> ids[|ids| - 1] == parent.id
    {
      var parents: seq<int> := [];
      var p := parent;
      ghost var k := |ancestors|;
      while p != null
        invariant 0 <= k <= |ancestors|
        invariant p == null <==> k == 0
        invariant p != null ==> p == ancestors[k - 1] && p.Chained() && p.ancestors == ancestors[..k - 1]
        invariant Reversed(parents) == IdsOf(ancestors[k..])
        decreases k
      {
        assert IdsOf(ancestors[k - 1..]) == [p.id] + IdsOf(ancestors[k..]);
        assert Reversed(parents + [p.id]) == [p.id] + Reversed(parents);
        parents := parents + [p.id];
        p := p.parent;
        k := k - 1;
      }
      ids := Reversed(parents);
      assert ancestors[0..] == ancestors;
    }

    /** `map[x, y, z]`: the tile at that cell. An x or y outside the table
        raises NoMethodError (`[]` on nil); a z outside the column gives nil. */
    function Get(x: int, y: int, z: int): (r: Result<Option<Tile>, CoreError>)
      reads this
      ensures r.Failure? <==> Slot(x, |table|).None? || Slot(y, |table[Slot(x, |table|).value]|).None?
      ensures r.Failure? ==> r.error == NoMethodError("[]")
      ensures r.Success? ==>
        var i := Slot(x, |table|).value;
        r == Success(Fetch(table[i][Slot(y, |table[i]|).value], z))
    {
      match Slot(x, |table|)
      case None => Failure(NoMethodError("[]"))
      case Some(i) =>
        match Slot(y, |table[i]|)
        case None => Failure(NoMethodError("[]"))
        case Some(j) => Success(Fetch(table[i][j], z))
    }

    /** The cell `map[x, y, z] = tile` writes, in non-negative coordinates,
        or None when the write raises. */
    function Target(t: Table, x: int, y: int, z: int): Option<(nat, nat, nat)> {
      match Slot(x, |t|)
      case None => None
      case Some(i) =>
        match Slot(y, |t[i]|)
        case None => None
        case Some(j) =>
          match StoreSlot(z, |t[i][j]|)
          case None => None
          case Some(k) => Some((i, j, k))
    }

    /** `map[x, y, z] = tile`: afterwards that cell reads `tile` and every
        other cell reads as before. Out of range x raises NoMethodError (`[]`
        on nil), out of range y NoMethodError (`[]=` on nil), z below minus
        the column length IndexError; z past the end grows the column. */
    method Set(x: int, y: int, z: int, tile: Tile) returns (err: Option<CoreError>)
      modifies this`table
      ensures Slot(x, |old(table)|).None? ==> err == Some(NoMethodError("[]"))
      ensures Slot(x, |old(table)|).Some? && Slot(y, |old(table)[Slot(x, |old(table)|).value]|).None? ==>
        err == Some(NoMethodError("[]="))
      ensures err.None? <==> Target(old(table), x, y, z).Some?
      ensures (Slot(x, |old(table)|).Some? && Slot(y, |old(table)[Slot(x, |old(table)|).value]|).Some?
               && Target(old(table), x, y, z).None?) ==> err == Some(IndexError)
      ensures err.Some? ==> table == old(table)
      ensures err.None? ==>
        var i := Slot(x, |old(table)|).value;
        var j := Slot(y, |old(table)[i]|).value;
        table == old(table)[i := old(table)[i][j := Store(old(table)[i][j], z, tile).value]]
      ensures err.None? ==> Get(x, y, z) == Success(Some(tile))
      ensures forall a: nat, b: nat, c: nat ::
        (err.Some? || Target(old(table), x, y, z) != Some((a, b, c))) ==> Get(a, b, c) == old(Get(a, b, c))
    {
      match Slot(x, |table|)
      case None =>
        err := Some(NoMethodError("[]"));
      case Some(i) =>
        match Slot(y, |table[i]|)
        case None =>
          err := Some(NoMethodError("[]="));
        case Some(j) =>
          var column := table[i][j];
          match Store(column, z, tile)
          case Failure(e) =>
            err := Some(e);
          case Success(stored) =>
            table := table[i := table[i][j := stored]];
            err := None;
            FetchAfterStore(column, z, tile);
            forall a: nat, b: nat, c: nat | Target(old(table), x, y, z) != Some((a, b, c))
              ensures Get(a, b, c) == old(Get(a, b, c))
            {
              if a == i && b == j {
                FetchOtherAfterStore(column, z, tile, c);
              }
            }
    }

    /** `name`: the stored name, or the id in decimal when it is empty. */
    function Name(): (s: string)
      reads this
      ensures |s| > 0
      ensures name != "" ==> s == name
      ensures name == "" ==> s == IntToS(id) && ParseDecimal(s) == Some(id)
    {
      if name == "" then IntToSRoundTrip(id); IntToS(id) else name
    }

    /** `name = str`: stores `str.to_s`. */
    method SetName(str: Value)
      modifies this`name
      ensures name == ToS(str)
      ensures ToS(str) != "" ==> Name() == ToS(str)
      ensures ToS(str) == "" ==> Name() == IntToS(id)
    {
      name := ToS(str);
    }
  }

  /** The registry of every map created so far (the class-level `@maps`). */
  class Registry {
    var maps: seq<Map>

    /** Ids identify maps, parents are registered and parent links are chained. */
    ghost predicate Valid()
      reads this
    {
      && (forall i, j :: 0 <= i < |maps| && 0 <= j < |maps| && maps[i].id == maps[j].id ==> maps[i] == maps[j])
      && (forall m :: m in maps ==> m.Chained())
      && (forall m :: m in maps && m.parent != null ==> m.parent in maps)
    }

    constructor ()
      ensures maps == [] && Valid()
    {
      maps := [];
    }

    /** `used_ids`: the id of every registered entry, in registration order. */
    function UsedIds(): (ids: seq<int>)
      reads this
      ensures |ids| == |maps|
      ensures forall k :: 0 <= k < |maps| ==> ids[k] == maps[k].id
    {
      IdsOf(maps)
    }

    /** `id_in_use?`: some registered map has that id. */
    function IdInUse(id: int): (b: bool)
      reads this
      ensures b <==> exists k :: 0 <= k < |maps| && maps[k].id == id
    {
      id in UsedIds()
    }

    /** `from_id`: nil for 0 (no parent), the registered map with that id, or
        ArgumentError when there is none. */
    function FromId(id: int): (r: Result<Map?, CoreError>)
      reads this
      ensures id == 0 ==> r == Success(null)
      ensures id != 0 && !IdInUse(id) ==>
        r == Failure(ArgumentError("A map with ID " + IntToS(id) + " doesn't exist!"))
      ensures id != 0 && IdInUse(id) ==> r.Success? && r.value != null && r.value in maps && r.value.id == id
    {
      if id == 0 then Success(null)
      else match Find(maps, id)
        case None => Failure(ArgumentError("A map with ID " + IntToS(id) + " doesn't exist!"))
        case Some(m) => Success(m)
    }

    /** `next_free_id`: the smallest id from 1 upwards that no map uses. */
    method NextFreeId() returns (n: int)
      ensures n >= 1 && !IdInUse(n)
      ensures forall k :: 1 <= k < n ==> IdInUse(k)
    {
      var ids := UsedIds();
      n := 1;
      while n in ids
        invariant n >= 1
        invariant forall k :: 1 <= k < n ==> k in ids
        decreases |set k | k in ids && k >= n|
      {
        ghost var above := set k | k in ids && k >= n;
        ghost var aboveNext := set k | k in ids && k >= n + 1;
        assert above == aboveNext + {n} && n !in aboveNext;
        assert |above| == |aboveNext| + 1;
        n := n + 1;
      }
    }

    /** The two checks `initialize` makes before it touches the registry. */
    predicate Admits(id: int, parent: int)
      reads this
    {
      (parent == 0 || IdInUse(parent)) && !IdInUse(id)
    }

    /** Whether `@parent.children_ids << @id` can run: there is no parent, or
        the parent has a child list (a half-built map has none). */
    predicate ParentTakesChildren(parent: int)
      reads this, set m | m in maps
    {
      parent == 0 || (IdInUse(parent) && FromId(parent).value.childrenIds.Some?)
    }

    /** `Map.new(id, name, mapset, width, height, depth, parent)`. */
    method NewMap(id: int, name: string, mapset: string, width: int, height: int, depth: int, parent: int := 0)
      returns (r: Result<Map, CoreError>)
      requires Valid()
      modifies this, set m | m in maps
      ensures Valid()
      ensures parent != 0 && !old(IdInUse(parent)) ==>
        r == Failure(ArgumentError("Parent ID " + IntToS(parent) + " doesn't exist!")) && maps == old(maps)
      ensures (parent == 0 || old(IdInUse(parent))) && old(IdInUse(id)) ==>
        r == Failure(ArgumentError("The ID " + IntToS(id) + " is already in use!")) && maps == old(maps)
      ensures old(Admits(id, parent)) && NegativeSizeReached(width, height, depth) ==>
        && r == Failure(ArgumentError("negative array size"))
        && |maps| == |old(maps)| + 1 && maps[..|old(maps)|] == old(maps)
        && fresh(maps[|old(maps)|]) && maps[|old(maps)|].id == id && IdInUse(id)
        && maps[|old(maps)|].parent == null && maps[|old(maps)|].childrenIds.None?
        && maps[|old(maps)|].name == name && maps[|old(maps)|].mapset == mapset
      ensures old(Admits(id, parent)) && !NegativeSizeReached(width, height, depth)
              && !old(ParentTakesChildren(parent)) ==>
        && r == Failure(NoMethodError("<<"))
        && |maps| == |old(maps)| + 1 && maps[..|old(maps)|] == old(maps)
        && fresh(maps[|old(maps)|]) && maps[|old(maps)|].id == id
        && maps[|old(maps)|].table == BlankTable(width, height, depth)
        && maps[|old(maps)|].parent == old(FromId(parent)).value
        && maps[|old(maps)|].childrenIds.None?
        && maps[|old(maps)|].name == name && maps[|old(maps)|].mapset == mapset
      ensures old(Admits(id, parent)) && !NegativeSizeReached(width, height, depth)
              && old(ParentTakesChildren(parent)) ==>
        && r.Success? && fresh(r.value)
        && maps == old(maps) + [r.value, r.value]
        && r.value.id == id && r.value.name == name && r.value.mapset == mapset
        && r.value.table == BlankTable(width, height, depth) && r.value.childrenIds == Some([])
        && (parent == 0 <==> r.value.parent == null)
        && (parent != 0 ==> r.value.parent == old(FromId(parent)).value)
      ensures forall m :: m in old(maps) ==>
        && m.name == old(m.name) && m.mapset == old(m.mapset) && m.table == old(m.table)
        && (r.Success? && parent != 0 && m.id == parent ==>
              old(m.childrenIds).Some? && m.childrenIds == Some(old(m.childrenIds).value + [id]))
        && (!(r.Success? && parent != 0 && m.id == parent) ==> m.childrenIds == old(m.childrenIds))
    {
      if parent != 0 && !IdInUse(parent) {
        return Failure(ArgumentError("Parent ID " + IntToS(parent) + " doesn't exist!"));
      }
      if IdInUse(id) {
        return Failure(ArgumentError("The ID " + IntToS(id) + " is already in use!"));
      }
      if NegativeSizeReached(width, height, depth) {
        // `maps << self` and `@name = name.to_str` have already run when
        // Array.new raises: the half-built map stays registered.
        var halfBuilt := new Map(id, name, mapset, [], null);
        maps := maps + [halfBuilt];
        return Failure(ArgumentError("negative array size"));
      }
      var parentMap: Map? := null;
      if parent != 0 {
        parentMap := FromId(parent).value;
      }
      var m := new Map(id, name, mapset, BlankTable(width, height, depth), parentMap);
      maps := maps + [m];
      if parentMap != null {
        if parentMap.childrenIds.None? {
          // `<<` on the nil child list of a half-built parent.
          return Failure(NoMethodError("<<"));
        }
        parentMap.childrenIds := Some(parentMap.childrenIds.value + [id]);
      }
      m.childrenIds := Some([]);
      maps := maps + [m];
      r := Success(m);
    }
  }
}
