/**
 * The camelCase engine on the classes it shares with the grill engine:
 * the base test of `core/names/test.py`, and the stale pattern after a
 * separator change on a Film.
 */
module CoreExamples {
  import opened Chars
  import opened Wrappers
  import opened NameSchema
  import opened NameParse
  import opened NameClasses
  import opened GrillNames
  import opened GrillRenaming
  import opened GrillExamples
  import opened CoreNames

  const Basename := Match(["basename"], Bare)

  /**
   * A new Name has no values; after `setName('basename')` the value of
   * `base`, the name and `nice_name` are all 'basename'.
   */
  lemma CoreBase()
    ensures CoreGetValues(NameShape, MatchedValues(NameShape, "_", "")) == None
    ensures MatchedValues(NameShape, "_", "basename") == Some(map["base" := Some("basename")])
    ensures NiceName(NameShape, "_", map["base" := Some("basename")]) == "basename"
  {
    BasenameParse();
    BasenameDict();
    BasenameNice();
  }

  lemma BasenameParse()
    ensures Parse(NameShape, "_", "basename") == Some(Basename)
  {
    NameShapesOk();
    UnderscoreSepOk(NameShape);
    assert Run("basename", Alnum);
    assert Text("_", Basename) == "basename";
    ParseComplete(NameShape, "_", Basename);
  }

  lemma BasenameDict()
    ensures GroupDict(NameShape, Basename) == map["base" := Some("basename")]
  {
    assert FieldDict(NameShape.fields[1..], Basename.values[1..]) == map[];
    assert ZipDict(PartKeys(NameShape.fields[0].parts), Pieces(NameShape.fields[0].parts, "basename")) == map[];
  }

  lemma BasenameNice()
    ensures NiceName(NameShape, "_", map["base" := Some("basename")]) == "basename"
  {
    var d: Values := map["base" := Some("basename")];
    assert Translate(FieldNames(NameShape.fields), d, NameShape.props, map[]) == ["basename"];
  }

  /**
   * A Film whose separator is set to '-' renders `getName(area='model')`
   * with dashes, and `setName` rejects that text: the pattern still joins
   * the fields with '_'.
   */
  lemma CoreFilmStaleSeparator()
    ensures StoredOk(FilmShape, GroupDict(FilmShape, FilmGeo))
    ensures CoreGetName(FilmShape, "-", Text("_", FilmGeo), GroupDict(FilmShape, FilmGeo), AreaModel) == Ok(Text("-", FilmModel))
    ensures MatchedValues(FilmShape, "_", Text("-", FilmModel)) == None
  {
    FilmStaleReady();
    FilmAreaRenamed();
    CoreStaleSeparator(FilmShape, "_", "-", FilmGeo, AreaModel);
  }

  /** The Film class, its geo match and the `area='model'` override meet what a separator change needs. */
  lemma FilmStaleReady()
    ensures SchemaOk(FilmShape) && SepOk(FilmShape, "_") && MatchOk(FilmShape, FilmGeo)
    ensures OverridesOk(FilmShape, FilmGeo, AreaModel) && AreaModel != map[]
    ensures |FilmShape.fields| > 1 && !NameChar('-', "_")
  {
    FilmGeoOk();
    FilmAreaRenamed();
    assert "area" in AreaModel;
  }

  /** `set_name('basename\n')` passes the `$` anchor as written, with the groups of `basename`. */
  lemma BasenameNewline()
    ensures Parse(NameShape, "_", "basename\n") == None
    ensures DollarParse(NameShape, "_", "basename\n") == Some(Basename)
  {
    BasenameOk();
    var t := Text("_", Basename) + "\n";
    assert t == "basename\n";
    DollarNewline(NameShape, "_", Basename);
  }

  lemma BasenameOk()
    ensures SchemaOk(NameShape) && SepOk(NameShape, "_") && MatchOk(NameShape, Basename)
    ensures Text("_", Basename) == "basename"
  {
    NameShapesOk();
    UnderscoreSepOk(NameShape);
    assert Run("basename", Alnum);
  }
}
