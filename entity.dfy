/**
 * `PackagingTypeEntity`: a mutable record whose typed properties start out
 * uninitialised (except `shortName`, which defaults to null), with one fluent
 * setter and one getter per property. The category is stored as its backing
 * string and decoded again on every read.
 */
module Entity {

  import opened Wrappers
  import opened Uuids
  import Categories

  /** The property values of a fully initialised entity. */
  datatype PackagingType = PackagingType(
    id: Uuid,
    name: string,
    shortName: Option<string>,
    transporeonId: string,
    category: Categories.Category,
    active: bool,
    length: Option<int>,
    width: Option<int>,
    height: Option<int>,
    weight: Option<real>,
    maxNbStackable: Option<int>)

  /** A typed property without a default: reading it before the first assignment throws. */
  datatype Property<T> = Uninitialized | Initialized(value: T)

  /** Reading a property; None is the error thrown for an uninitialised one. */
  function Read<T>(p: Property<T>): Option<T>
  {
    match p
    case Uninitialized => None
    case Initialized(v) => Some(v)
  }

  /** The state of all properties of an entity at once. */
  datatype Properties = Properties(
    id: Property<Uuid>,
    name: Property<string>,
    shortName: Option<string>,
    transporeonId: Property<string>,
    category: Property<string>,
    active: Property<bool>,
    length: Property<Option<int>>,
    width: Property<Option<int>>,
    height: Property<Option<int>>,
    weight: Property<Option<real>>,
    maxNbStackable: Property<Option<int>>)

  /** A new entity: only `shortName` is initialised, to null. */
  const NewProperties: Properties := Properties(
    Uninitialized, Uninitialized, None, Uninitialized, Uninitialized, Uninitialized,
    Uninitialized, Uninitialized, Uninitialized, Uninitialized, Uninitialized)

  class PackagingTypeEntity {
    var id: Property<Uuid>
    var name: Property<string>
    var shortName: Option<string>
    var transporeonId: Property<string>
    var category: Property<string>
    var active: Property<bool>
    var length: Property<Option<int>>
    var width: Property<Option<int>>
    var height: Property<Option<int>>
    var weight: Property<Option<real>>
    var maxNbStackable: Property<Option<int>>

    constructor ()
      ensures Props() == NewProperties
    {
      id, name, shortName, transporeonId := Uninitialized, Uninitialized, None, Uninitialized;
      category, active := Uninitialized, Uninitialized;
      length, width, height := Uninitialized, Uninitialized, Uninitialized;
      weight, maxNbStackable := Uninitialized, Uninitialized;
    }

    function Props(): Properties
      reads this
    {
      Properties(id, name, shortName, transporeonId, category, active,
                 length, width, height, weight, maxNbStackable)
    }

    function GetId(): Option<Uuid> reads this { Read(id) }
    function GetName(): Option<string> reads this { Read(name) }
    function GetShortName(): Option<string> reads this { shortName }
    function GetTransporeonId(): Option<string> reads this { Read(transporeonId) }
    function GetActive(): Option<bool> reads this { Read(active) }
    function GetLength(): Option<Option<int>> reads this { Read(length) }
    function GetWidth(): Option<Option<int>> reads this { Read(width) }
    function GetHeight(): Option<Option<int>> reads this { Read(height) }
    function GetWeight(): Option<Option<real>> reads this { Read(weight) }
    function GetMaxNbStackable(): Option<Option<int>> reads this { Read(maxNbStackable) }

    /** `getCategory()`: the stored string decoded with `Category::from`. */
    function GetCategory(): Option<Categories.Category>
      reads this
    {
      match category
      case Uninitialized => None
      case Initialized(s) => Categories.From(s)
    }

    /**
     * The property values, once every getter succeeds; None while a getter
     * would still throw.
     */
    function Snapshot(): (r: Option<PackagingType>)
      reads this
      ensures r.Some? <==>
        GetId().Some? && GetName().Some? && GetTransporeonId().Some? &&
        GetCategory().Some? && GetActive().Some? && GetLength().Some? &&
        GetWidth().Some? && GetHeight().Some? && GetWeight().Some? &&
        GetMaxNbStackable().Some?
      ensures r.Some? ==>
        Some(r.value.id) == GetId() && Some(r.value.name) == GetName() &&
        r.value.shortName == GetShortName() &&
        Some(r.value.transporeonId) == GetTransporeonId() &&
        Some(r.value.category) == GetCategory() && Some(r.value.active) == GetActive() &&
        Some(r.value.length) == GetLength() && Some(r.value.width) == GetWidth() &&
        Some(r.value.height) == GetHeight() && Some(r.value.weight) == GetWeight() &&
        Some(r.value.maxNbStackable) == GetMaxNbStackable()
    {
      match (id, name, transporeonId, GetCategory(), active)
      case (Initialized(i), Initialized(n), Initialized(t), Some(c), Initialized(a)) =>
        (match (length, width, height, weight, maxNbStackable)
         case (Initialized(l), Initialized(w), Initialized(h), Initialized(wt), Initialized(m)) =>
           Some(PackagingType(i, n, shortName, t, c, a, l, w, h, wt, m))
         case _ => None)
      case _ => None
    }

    method SetId(id: Uuid) returns (self: PackagingTypeEntity)
      modifies this
      ensures self == this
      ensures Props() == old(Props()).(id := Initialized(id))
      ensures GetId() == Some(id)
    {
      this.id := Initialized(id);
      self := this;
    }

    method SetName(name: string) returns (self: PackagingTypeEntity)
      modifies this
      ensures self == this
      ensures Props() == old(Props()).(name := Initialized(name))
      ensures GetName() == Some(name)
    {
      this.name := Initialized(name);
      self := this;
    }

    method SetShortName(shortName: Option<string>) returns (self: PackagingTypeEntity)
      modifies this
      ensures self == this
      ensures Props() == old(Props()).(shortName := shortName)
      ensures GetShortName() == shortName
    {
      this.shortName := shortName;
      self := this;
    }

    method SetTransporeonId(transporeonId: string) returns (self: PackagingTypeEntity)
      modifies this
      ensures self == this
      ensures Props() == old(Props()).(transporeonId := Initialized(transporeonId))
      ensures GetTransporeonId() == Some(transporeonId)
    {
      this.transporeonId := Initialized(transporeonId);
      self := this;
    }

    /** Stores the backing string of `category`; reading it back decodes the same case. */
    method SetCategory(category: Categories.Category) returns (self: PackagingTypeEntity)
      modifies this
      ensures self == this
      ensures Props() == old(Props()).(category := Initialized(Categories.Value(category)))
      ensures GetCategory() == Some(category)
    {
      this.category := Initialized(Categories.Value(category));
      Categories.FromValue(category);
      self := this;
    }

    method SetActive(active: bool) returns (self: PackagingTypeEntity)
      modifies this
      ensures self == this
      ensures Props() == old(Props()).(active := Initialized(active))
      ensures GetActive() == Some(active)
    {
      this.active := Initialized(active);
      self := this;
    }

    method SetLength(length: Option<int>) returns (self: PackagingTypeEntity)
      modifies this
      ensures self == this
      ensures Props() == old(Props()).(length := Initialized(length))
      ensures GetLength() == Some(length)
    {
      this.length := Initialized(length);
      self := this;
    }

    method SetWidth(width: Option<int>) returns (self: PackagingTypeEntity)
      modifies this
      ensures self == this
      ensures Props() == old(Props()).(width := Initialized(width))
      ensures GetWidth() == Some(width)
    {
      this.width := Initialized(width);
      self := this;
    }

    method SetHeight(height: Option<int>) returns (self: PackagingTypeEntity)
      modifies this
      ensures self == this
      ensures Props() == old(Props()).(height := Initialized(height))
      ensures GetHeight() == Some(height)
    {
      this.height := Initialized(height);
      self := this;
    }

    method SetWeight(weight: Option<real>) returns (self: PackagingTypeEntity)
      modifies this
      ensures self == this
      ensures Props() == old(Props()).(weight := Initialized(weight))
      ensures GetWeight() == Some(weight)
    {
      this.weight := Initialized(weight);
      self := this;
    }

    method SetMaxNbStackable(maxNbStackable: Option<int>) returns (self: PackagingTypeEntity)
      modifies this
      ensures self == this
      ensures Props() == old(Props()).(maxNbStackable := Initialized(maxNbStackable))
      ensures GetMaxNbStackable() == Some(maxNbStackable)
    {
      this.maxNbStackable := Initialized(maxNbStackable);
      self := this;
    }
  }

  /** On a new entity only `shortName` can be read, and it reads null. */
  lemma NewEntityReads(e: PackagingTypeEntity)
    requires e.Props() == NewProperties
    ensures e.GetShortName() == None
    ensures e.GetId().None? && e.GetName().None? && e.GetTransporeonId().None?
    ensures e.GetCategory().None? && e.GetActive().None? && e.GetLength().None?
    ensures e.GetWidth().None? && e.GetHeight().None? && e.GetWeight().None?
    ensures e.GetMaxNbStackable().None?
    ensures e.Snapshot().None?
  {
  }
}
