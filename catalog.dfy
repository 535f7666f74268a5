/** The fixed catalog of target languages and the lookup of the script that belongs to the
    selected language, falling back to Latin. */
module Catalog {
  import opened Common

  datatype Language = Language(value: string, display: string, script: string)

  /** The catalog, in the order the language picker lists it; its first entry is the default. */
  const Languages: seq<Language> := [
    Language("English", "English", "Latin"),
    Language("Hindi", "Hindi", "Devanagari"),
    Language("Marathi", "Marathi", "Devanagari"),
    Language("Tamil", "Tamil", "Tamil"),
    Language("Telugu", "Telugu", "Telugu"),
    Language("Kannada", "Kannada", "Kannada")
  ]

  const DefaultLanguage: string := "English"
  const FallbackScript: string := "Latin"

  predicate Listed(catalog: seq<Language>, v: string)
  {
    exists i :: 0 <= i < |catalog| && catalog[i].value == v
  }

  /** No two entries share a value. */
  predicate DistinctValues(catalog: seq<Language>)
  {
    forall i, j :: 0 <= i < j < |catalog| ==> catalog[i].value != catalog[j].value
  }

  /** The first entry whose value is `v`, as `Array.prototype.find` returns it. */
  function Find(catalog: seq<Language>, v: string): (r: Option<Language>)
    ensures r.None? <==> !Listed(catalog, v)
    ensures r.Some? ==> exists i :: 0 <= i < |catalog| && catalog[i] == r.value && r.value.value == v
                                    && forall j :: 0 <= j < i ==> catalog[j].value != v
  {
    if catalog == [] then None
    else if catalog[0].value == v then Some(catalog[0])
    else
      var r := Find(catalog[1..], v);
      assert Listed(catalog, v) ==> Listed(catalog[1..], v) by {
        if Listed(catalog, v) {
          var i :| 0 <= i < |catalog| && catalog[i].value == v;
          assert catalog[1..][i - 1].value == v;
        }
      }
      if r.Some? then
        assert exists i :: 0 <= i < |catalog| && catalog[i] == r.value && r.value.value == v
                           && forall j :: 0 <= j < i ==> catalog[j].value != v by {
          var k :| 0 <= k < |catalog[1..]| && catalog[1..][k] == r.value && r.value.value == v
                   && forall j :: 0 <= j < k ==> catalog[1..][j].value != v;
          assert catalog[k + 1] == r.value;
          assert forall j :: 0 <= j < k + 1 ==> catalog[j].value != v by {
            forall j | 0 <= j < k + 1 ensures catalog[j].value != v {
              if j > 0 { assert catalog[j] == catalog[1..][j - 1]; }
            }
          }
        }
        r
      else r
  }

  /** The script of the catalog entry for `v`; an unlisted value (or an entry with an empty script,
      which JavaScript's `||` treats as missing) gives the Latin script. */
  function ScriptIn(catalog: seq<Language>, v: string): (s: string)
    requires DistinctValues(catalog)
    ensures forall i :: 0 <= i < |catalog| && catalog[i].value == v && catalog[i].script != "" ==> s == catalog[i].script
    ensures forall i :: 0 <= i < |catalog| && catalog[i].value == v && catalog[i].script == "" ==> s == FallbackScript
    ensures !Listed(catalog, v) ==> s == FallbackScript
    ensures s != ""
  {
    match Find(catalog, v)
    case Some(entry) => if entry.script != "" then entry.script else FallbackScript
    case None => FallbackScript
  }

  /** The script used for transliteration while `v` is the selected language. */
  function SelectedScript(v: string): (s: string)
    ensures forall i :: 0 <= i < |Languages| && Languages[i].value == v ==> s == Languages[i].script
    ensures !Listed(Languages, v) ==> s == FallbackScript
    ensures exists i :: 0 <= i < |Languages| && Languages[i].script == s
  {
    CatalogIsWellFormed();
    assert Languages[0].script == FallbackScript;
    ScriptIn(Languages, v)
  }

  /** The catalog's values are distinct and every entry names a script. */
  lemma CatalogIsWellFormed()
    ensures DistinctValues(Languages)
    ensures forall i :: 0 <= i < |Languages| ==> Languages[i].script != ""
    ensures Languages[0].value == DefaultLanguage
  {
  }

  lemma ScriptExamples()
    ensures SelectedScript("English") == "Latin"
    ensures SelectedScript("Hindi") == "Devanagari"
    ensures SelectedScript("Marathi") == "Devanagari"
    ensures SelectedScript("Tamil") == "Tamil"
    ensures SelectedScript("Kannada") == "Kannada"
    ensures SelectedScript("French") == "Latin"
    ensures SelectedScript("") == "Latin"
  {
    assert Languages[0].value == "English";
    assert Languages[1].value == "Hindi";
    assert Languages[2].value == "Marathi";
    assert Languages[3].value == "Tamil";
    assert Languages[5].value == "Kannada";
    assert !Listed(Languages, "French");
    assert !Listed(Languages, "");
  }
}
