/**
 * The certificate layout configuration and its global store.
 *
 * The configuration maps a top-level variant key ("withPicture" or
 * "withoutPicture") to a variant, and a variant maps a field name
 * ("picture", "name", "class", "signature") to a placement record.
 * The store is updated in place by a shallow, one-level merge and read
 * back as a detached copy.
 */
module Layout {

  /** Where and how one text field is written: the right-hand anchor (x, y),
      the font size in pixels, the font family and the fill colour. */
  datatype TextStyle = TextStyle(x: real, y: real, fontSize: real, fontFamily: string, color: string)

  /** Where the round picture goes: its centre, the clip radius and an extra scale factor. */
  datatype PictureFrame = PictureFrame(x: real, y: real, radius: real, scale: real)

  /** One placement record, as stored under a field name. */
  datatype Placement = TextPlacement(style: TextStyle) | PicturePlacement(frame: PictureFrame)

  /** A layout variant: field name to placement record. */
  type Variant = map<string, Placement>

  /** The whole configuration: variant key to variant. */
  type Config = map<string, Variant>

  /** The argument of an update: top-level key to the fields to assign into that variant. */
  type ConfigUpdate = map<string, Variant>

  const WithPictureKey := "withPicture"
  const WithoutPictureKey := "withoutPicture"

  const PictureField := "picture"
  const NameField := "name"
  const ClassField := "class"
  const SignatureField := "signature"

  /** The font family every default text field uses. */
  const DefaultFontFamily := "\"Segoe UI\", Arial, sans-serif"
  /** The colour every default text field uses. */
  const DefaultInk := "#212121"

  predicate IsTextField(field: string) {
    field == NameField || field == ClassField || field == SignatureField
  }

  /** The record under `field` has the shape the renderer reads for that field,
      and a picture frame has a radius the circular clip accepts. */
  predicate ShapeFits(field: string, p: Placement) {
    && (field == PictureField ==> p.PicturePlacement? && p.frame.radius >= 0.0)
    && (IsTextField(field) ==> p.TextPlacement?)
  }

  predicate HasText(v: Variant, field: string) {
    field in v && v[field].TextPlacement?
  }

  predicate HasFrame(v: Variant) {
    PictureField in v && v[PictureField].PicturePlacement?
  }

  /** A variant the renderer can draw all three text fields from. */
  predicate TextComplete(v: Variant) {
    HasText(v, NameField) && HasText(v, ClassField) && HasText(v, SignatureField)
  }

  /** Both variants exist, both carry the three text fields, and the
      picture variant carries a picture frame whose radius is not negative. */
  predicate WellFormed(c: Config) {
    && WithPictureKey in c && WithoutPictureKey in c
    && TextComplete(c[WithPictureKey]) && TextComplete(c[WithoutPictureKey])
    && HasFrame(c[WithPictureKey])
    && c[WithPictureKey][PictureField].frame.radius >= 0.0
  }

  /** Every record an update supplies has the shape its field name calls for. */
  predicate WellShaped(u: ConfigUpdate) {
    forall key | key in u :: forall field | field in u[key] :: ShapeFits(field, u[key][field])
  }

  /** The configuration the script starts with. */
  function DefaultConfig(): (c: Config)
    ensures WellFormed(c)
    ensures c.Keys == {WithPictureKey, WithoutPictureKey}
    ensures c[WithPictureKey].Keys == {PictureField, NameField, ClassField, SignatureField}
    ensures c[WithoutPictureKey].Keys == {NameField, ClassField, SignatureField}
  {
    var name := TextPlacement(TextStyle(2100.0, 1325.0, 150.0, DefaultFontFamily, DefaultInk));
    var klass := TextPlacement(TextStyle(2100.0, 1525.0, 150.0, DefaultFontFamily, DefaultInk));
    var signature := TextPlacement(TextStyle(2980.0, 1910.0, 130.0, DefaultFontFamily, DefaultInk));
    var picture := PicturePlacement(PictureFrame(3085.0, 1045.0, 320.0, 1.1));
    map[
      WithPictureKey := map[PictureField := picture, NameField := name, ClassField := klass, SignatureField := signature],
      WithoutPictureKey := map[NameField := name, ClassField := klass, SignatureField := signature]
    ]
  }

  /** The shallow merge performed by an update: for each update key that
      names an existing variant, the supplied fields are assigned into that
      variant (each replacing the old record whole); other keys are ignored. */
  function Merge(c: Config, u: ConfigUpdate): (r: Config)
    ensures r.Keys == c.Keys
  {
    map key | key in c :: if key in u then c[key] + u[key] else c[key]
  }

  /** Update keys that name no variant are ignored. */
  lemma MergeIgnoresUnknownKeys(c: Config, u: ConfigUpdate)
    ensures Merge(c, u) == Merge(c, map key | key in u && key in c :: u[key])
  {
  }

  /** A variant the update does not name is left as it was. */
  lemma MergeLeavesUnnamedVariants(c: Config, u: ConfigUpdate, key: string)
    requires key in c && key !in u
    ensures Merge(c, u)[key] == c[key]
  {
  }

  /** Within a named variant, a supplied field replaces the old record as a
      whole, fields not supplied keep their records, and the variant gains
      exactly the supplied field names. */
  lemma MergeIsShallow(c: Config, u: ConfigUpdate, key: string, field: string)
    requires key in c && key in u
    ensures Merge(c, u)[key].Keys == c[key].Keys + u[key].Keys
    ensures field in u[key] ==> Merge(c, u)[key][field] == u[key][field]
    ensures field !in u[key] && field in c[key] ==> Merge(c, u)[key][field] == c[key][field]
  {
  }

  /** Applying the same update twice has the effect of applying it once. */
  lemma MergeIdempotent(c: Config, u: ConfigUpdate)
    ensures Merge(Merge(c, u), u) == Merge(c, u)
  {
    var once := Merge(c, u);
    var twice := Merge(once, u);
    forall key | key in c
      ensures twice[key] == once[key]
    {
      if key in u {
        assert twice[key] == (c[key] + u[key]) + u[key];
      }
    }
  }

  /** A well-formed configuration stays well-formed under a well-shaped update. */
  lemma MergePreservesWellFormed(c: Config, u: ConfigUpdate)
    requires WellFormed(c) && WellShaped(u)
    ensures WellFormed(Merge(c, u))
  {
  }

  /** The part of an update whose keys have been visited, when `pending` are still to go. */
  ghost function Processed(u: ConfigUpdate, pending: set<string>): (done: ConfigUpdate)
    ensures forall key | key in done :: key in u && key !in pending && done[key] == u[key]
    ensures forall key | key in u && key !in pending :: key in done
  {
    map key | key in u && key !in pending :: u[key]
  }

  /** Visiting one more update key assigns its fields into the variant it names, if any. */
  lemma MergeStep(c: Config, u: ConfigUpdate, pending: set<string>, key: string)
    requires key in pending && key in u
    ensures var before := Merge(c, Processed(u, pending));
      Merge(c, Processed(u, pending - {key})) ==
        if key in c then before[key := c[key] + u[key]] else before
  {
    assert Processed(u, pending - {key}) == Processed(u, pending)[key := u[key]];
  }

  /** The global configuration object, updated in place. */
  class ConfigStore {
    var config: Config

    /** The store as the script loads it. */
    constructor ()
      ensures config == DefaultConfig()
    {
      config := DefaultConfig();
    }

    /** Merges `update` into the configuration, one top-level key at a time. */
    method Update(update: ConfigUpdate)
      modifies this
      ensures config == Merge(old(config), update)
      ensures WellFormed(old(config)) && WellShaped(update) ==> WellFormed(config)
    {
      ghost var start := config;
      var pending := update.Keys;
      while pending != {}
        invariant pending <= update.Keys
        invariant config == Merge(start, Processed(update, pending))
        decreases pending
      {
        var key :| key in pending;
        MergeStep(start, update, pending, key);
        if key in config {
          config := config[key := config[key] + update[key]];
        }
        pending := pending - {key};
      }
      assert Processed(update, pending) == update;
      if WellFormed(start) && WellShaped(update) {
        MergePreservesWellFormed(start, update);
      }
    }

    /** A copy of the current configuration; being a value, it is unaffected by later updates. */
    method Snapshot() returns (copy: Config)
      ensures copy == config
    {
      copy := config;
    }
  }

  /** A snapshot taken before an update still holds the configuration as it was,
      and one taken after holds the merged configuration. */
  method SnapshotIsDetached(store: ConfigStore, update: ConfigUpdate) returns (before: Config, after: Config)
    modifies store
    ensures before == old(store.config)
    ensures after == Merge(before, update)
  {
    before := store.Snapshot();
    store.Update(update);
    after := store.Snapshot();
  }
}
