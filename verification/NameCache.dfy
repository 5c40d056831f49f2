/** state/namecache.go: the persisted car names and the migration from the old file format. */
module NameCache {
  import opened GoValues

  datatype CachedCar = CachedCar(displayName: string, model: string)

  const NO_NAMES := CachedCar("", "")

  /** What is stored: nothing, something that is no JSON object of either format, the old format
      (car ID to display name), or the current one. */
  datatype File = Absent | Garbage | Legacy(names: map<string, string>) | Current(cars: map<string, CachedCar>)

  /** The non-empty names of an old file. */
  function Migrated(names: map<string, string>): map<string, CachedCar> {
    map id | id in names && names[id] != "" :: CachedCar(names[id], "")
  }

  function Loaded(file: File): map<string, CachedCar> {
    match file
    case Current(cars) => cars
    case Legacy(names) => Migrated(names)
    case _ => map[]
  }

  /** The names a file holds for one car. */
  function CachedFor(file: File, id: string): CachedCar {
    if id in Loaded(file) then Loaded(file)[id] else NO_NAMES
  }

  datatype NameUpdate = SetDisplayName(value: string) | SetModel(value: string)

  function Updated(cc: CachedCar, u: NameUpdate): CachedCar {
    match u
    case SetDisplayName(value) => cc.(displayName := value)
    case SetModel(value) => cc.(model := value)
  }

  /** cacheCar: load, mutate one entry, save. */
  function Rewritten(file: File, id: string, u: NameUpdate): File {
    Current(Loaded(file)[id := Updated(CachedFor(file, id), u)])
  }

  /** Updating one car keeps every other car's names, whatever format the file was in; the first
      rewrite of an old file keeps all its non-empty names. */
  lemma {:induction false} RewriteKeepsOthers(file: File, id: string, u: NameUpdate)
    ensures CachedFor(Rewritten(file, id, u), id) == Updated(CachedFor(file, id), u)
    ensures forall other | other != id :: CachedFor(Rewritten(file, id, u), other) == CachedFor(file, other)
    ensures file.Legacy? ==> forall other | other != id && other in file.names && file.names[other] != "" ::
              CachedFor(Rewritten(file, id, u), other) == CachedCar(file.names[other], "")
  {
  }

  class CarNameCache {
    var file: File

    constructor (file: File)
      ensures this.file == file
    {
      this.file := file;
    }

    method Load() returns (cars: map<string, CachedCar>)
      ensures cars == Loaded(file)
    {
      cars := if file.Current? then file.cars else map[];
      if |cars| > 0 {
        return;
      }
      if !file.Legacy? {
        return;
      }
      var left := file.names.Keys;
      while left != {}
        invariant left <= file.names.Keys
        invariant cars == map id | id in file.names.Keys - left && file.names[id] != "" :: CachedCar(file.names[id], "")
      {
        var id :| id in left;
        if file.names[id] != "" {
          cars := cars[id := CachedCar(file.names[id], "")];
        }
        left := left - {id};
      }
      assert cars == Migrated(file.names);
    }

    method Save(cars: map<string, CachedCar>)
      modifies this
      ensures file == Current(cars)
    {
      file := Current(cars);
    }

    method CacheCar(id: string, u: NameUpdate)
      modifies this
      ensures file == Rewritten(old(file), id, u)
    {
      var cars := Load();
      var cc := if id in cars then cars[id] else NO_NAMES;
      cc := Updated(cc, u);
      Save(cars[id := cc]);
    }
  }
}
