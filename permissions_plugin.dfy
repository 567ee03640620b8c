/**
 * PermissionsPlugin: a plugin's registry record (row id, package, supported
 * and targeted packages and APIs, active flag) and its Parcelable encoding.
 */
module PluginRecord {
  import opened Wrappers
  import opened ItemParcel

  /** The supported-packages entry that stands for every app. */
  const ALL_PACKAGES: string := "*"
  /** The API name of the location interposer. */
  const PLUGIN_API_LOCATION: string := "location"

  /** The row id of a plugin that was never stored. */
  const NO_ID: int := -1

  /** The fields of a plugin record; a null string or list is None. The
   *  targets are meant to be subsets of the supported packages and APIs,
   *  which nothing enforces. */
  datatype PluginData = PluginData(
    id: Int64,
    packageName: Option<string>,
    supportedPackages: Option<seq<string>>,
    supportedAPIs: Option<seq<string>>,
    targetPackages: Option<seq<string>>,
    targetAPIs: Option<seq<string>>,
    isActive: bool)

  /** isActive as the int written to a parcel or a database column. */
  function ActiveFlag(isActive: bool): (r: Int32)
    ensures r == 1 <==> isActive
    ensures r == 0 <==> !isActive
  {
    if isActive then 1 else 0
  }

  /** writeToParcel: the id as a long, the package, the four lists, then
   *  the active flag. */
  function Encode(d: PluginData): (items: seq<Item>)
    ensures |items| == 7
  {
    [LongItem(d.id), StringItem(d.packageName),
     StringListItem(d.supportedPackages), StringListItem(d.supportedAPIs),
     StringListItem(d.targetPackages), StringListItem(d.targetAPIs),
     IntItem(ActiveFlag(d.isActive))]
  }

  /** What the Parcel constructor reads from position `pos`, and where it
   *  stops; the plugin is active exactly when the int read is 1. */
  datatype Decoded = Decoded(data: PluginData, end: nat)

  function Decode(items: seq<Item>, pos: nat): Decoded {
    var p1 := Next(items, pos);
    var p2 := Next(items, p1);
    var p3 := Next(items, p2);
    var p4 := Next(items, p3);
    var p5 := Next(items, p4);
    var p6 := Next(items, p5);
    Decoded(PluginData(LongAt(items, pos), StringAt(items, p1),
                       StringListAt(items, p2), StringListAt(items, p3),
                       StringListAt(items, p4), StringListAt(items, p5),
                       IntAt(items, p6) == 1),
            Next(items, p6))
  }

  /** Encode-then-decode reproduces every field, nulls included, and leaves
   *  the cursor just after the record. */
  lemma DecodeEncode(before: seq<Item>, d: PluginData, after: seq<Item>)
    ensures Decode(before + Encode(d) + after, |before|) == Decoded(d, |before| + 7)
  {
    var items := before + Encode(d) + after;
    assert items[|before|..|before| + 7] == Encode(d);
  }

  class PermissionsPlugin {
    var id: Int64
    var packageName: Option<string>
    var supportedPackages: Option<seq<string>>
    var supportedAPIs: Option<seq<string>>
    var targetPackages: Option<seq<string>>
    var targetAPIs: Option<seq<string>>
    var isActive: bool

    /** A new plugin: no row id, inactive, four empty lists. */
    constructor (packageName: Option<string>)
      ensures Data() == PluginData(NO_ID, packageName, Some([]), Some([]), Some([]), Some([]), false)
    {
      this.packageName := packageName;
      id := NO_ID;
      isActive := false;
      supportedPackages := Some([]);
      supportedAPIs := Some([]);
      targetPackages := Some([]);
      targetAPIs := Some([]);
    }

    /** The Parcel constructor: the fields read in the order writeToParcel
     *  writes them. */
    constructor FromParcel(src: Parcel)
      modifies src`pos
      ensures Data() == Decode(src.items, old(src.pos)).data
      ensures src.pos == Decode(src.items, old(src.pos)).end
    {
      var i := src.ReadLong();
      var name := src.ReadString();
      var sp := src.CreateStringArrayList();
      var sa := src.CreateStringArrayList();
      var tp := src.CreateStringArrayList();
      var ta := src.CreateStringArrayList();
      var active := src.ReadInt();
      id, packageName := i, name;
      supportedPackages, supportedAPIs, targetPackages, targetAPIs := sp, sa, tp, ta;
      isActive := active == 1;
    }

    function Data(): PluginData
      reads this
    {
      PluginData(id, packageName, supportedPackages, supportedAPIs, targetPackages, targetAPIs, isActive)
    }

    method WriteToParcel(dest: Parcel, flags: int)
      modifies dest`items
      ensures dest.items == old(dest.items) + Encode(Data())
    {
      dest.WriteLong(id);
      dest.WriteString(packageName);
      dest.WriteStringList(supportedPackages);
      dest.WriteStringList(supportedAPIs);
      dest.WriteStringList(targetPackages);
      dest.WriteStringList(targetAPIs);
      dest.WriteInt(ActiveFlag(isActive));
    }

    /** toString is the package name. */
    function ToString(): Option<string>
      reads this
    {
      packageName
    }

    /** describeContents. */
    function DescribeContents(): int {
      0
    }
  }
}
