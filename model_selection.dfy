/** Selection of the model the first backend ("Daon", Gemini) is asked with:
    filter the provider's model listing, take the first preferred name that is
    available, else the first available model, else the hard-coded default;
    then strip the "models/" resource prefix to obtain the model id. */
module ModelSelection {
  import opened Wrappers

  /** One entry of the provider's model listing. */
  datatype ModelInfo = ModelInfo(name: string, supportedGenerationMethods: seq<string>)

  /** What listing the models produced: the entries, or an exception. */
  datatype Listing = Listed(models: seq<ModelInfo>) | ListingFailed

  const GenerateContent: string := "generateContent"

  /** Most preferred first. */
  const PreferredOrder: seq<string> :=
    ["models/gemini-1.5-flash", "models/gemini-pro", "models/gemini-1.0-pro"]

  /** Used when selection yields nothing usable. */
  const DefaultModel: string := "gemini-pro"

  const ModelsPrefix: string := "models/"

  predicate CanGenerate(m: ModelInfo) {
    GenerateContent in m.supportedGenerationMethods
  }

  /** The names of the listed models that support content generation, in
      listing order. */
  function Available(models: seq<ModelInfo>): (names: seq<string>)
    ensures |names| <= |models|
    ensures forall n :: n in names <==> exists m :: m in models && CanGenerate(m) && m.name == n
    ensures names != [] ==>
      exists k :: 0 <= k < |models| && CanGenerate(models[k]) && names[0] == models[k].name &&
        forall j :: 0 <= j < k ==> !CanGenerate(models[j])
  {
    if models == [] then []
    else
      var rest := Available(models[1..]);
      if CanGenerate(models[0]) then
        [models[0].name] + rest
      else
        assert forall m :: m in models[1..] ==> m in models;
        assert forall m :: m in models && m != models[0] ==> m in models[1..];
        if rest != [] then
          var k :| 0 <= k < |models[1..]| && CanGenerate(models[1..][k]) && rest[0] == models[1..][k].name &&
            forall j :: 0 <= j < k ==> !CanGenerate(models[1..][j]);
          assert CanGenerate(models[k + 1]) && rest[0] == models[k + 1].name;
          assert forall j :: 0 <= j < k + 1 ==> !CanGenerate(models[j]) by {
            forall j | 0 <= j < k + 1 ensures !CanGenerate(models[j]) {
              if j > 0 { assert models[j] == models[1..][j - 1]; }
            }
          }
          rest
        else
          rest
  }

  /** The first entry of `prefs` that occurs in `names`, if any. */
  function FirstPreferred(prefs: seq<string>, names: seq<string>): (r: Option<string>)
    ensures r.None? <==> forall p :: p in prefs ==> p !in names
    ensures r.Some? ==>
      exists i :: 0 <= i < |prefs| && prefs[i] == r.value && r.value in names &&
        forall j :: 0 <= j < i ==> prefs[j] !in names
  {
    if prefs == [] then None
    else if prefs[0] in names then Some(prefs[0])
    else
      var r := FirstPreferred(prefs[1..], names);
      assert forall p :: p in prefs ==> p == prefs[0] || p in prefs[1..];
      if r.Some? then
        var i :| 0 <= i < |prefs[1..]| && prefs[1..][i] == r.value && r.value in names &&
          forall j :: 0 <= j < i ==> prefs[1..][j] !in names;
        assert prefs[i + 1] == r.value;
        assert forall j :: 0 <= j < i + 1 ==> prefs[j] !in names by {
          forall j | 0 <= j < i + 1 ensures prefs[j] !in names {
            if j > 0 { assert prefs[j] == prefs[1..][j - 1]; }
          }
        }
        r
      else
        r
  }

  /** An available preference beats every later one: when `prefs[i]` is the
      earliest preference present in `names`, it is the one chosen. */
  lemma {:induction false} EarliestPreferenceWins(prefs: seq<string>, names: seq<string>, i: nat)
    requires i < |prefs| && prefs[i] in names
    requires forall j :: 0 <= j < i ==> prefs[j] !in names
    ensures FirstPreferred(prefs, names) == Some(prefs[i])
  {
    if i > 0 {
      assert prefs[0] !in names;
      forall j | 0 <= j < i - 1 ensures prefs[1..][j] !in names {
        assert prefs[1..][j] == prefs[j + 1];
      }
      EarliestPreferenceWins(prefs[1..], names, i - 1);
    }
  }

  /** The model name chosen from a listing, or None when the listing failed or
      no listed model can generate content. */
  function SelectModel(listing: Listing): (r: Option<string>)
    ensures listing.ListingFailed? ==> r == None
    ensures listing.Listed? ==> (r == None <==> Available(listing.models) == [])
    ensures listing.Listed? && r.Some? ==> r.value in Available(listing.models)
    // no available entry of the preference list is ranked earlier than the choice
    ensures listing.Listed? ==>
      forall i :: 0 <= i < |PreferredOrder| && PreferredOrder[i] in Available(listing.models) ==>
        r.Some? && exists j :: 0 <= j <= i && r.value == PreferredOrder[j]
    // without an available preference, the first model that can generate
    ensures listing.Listed? && (forall p :: p in PreferredOrder ==> p !in Available(listing.models)) ==>
      (r.Some? <==> Available(listing.models) != []) &&
      (r.Some? ==> r.value == Available(listing.models)[0])
  {
    match listing
    case ListingFailed => None
    case Listed(models) =>
      var names := Available(models);
      var preferred := FirstPreferred(PreferredOrder, names);
      if preferred.Some? then
        assert preferred.value in names;
        preferred
      else if names != [] then Some(names[0])
      else None
  }

  /** The model name used for every first-backend call: the selection, or the
      default when the selection is None or the empty string (both falsy in
      app.py). */
  function ModelName(listing: Listing): (name: string)
    ensures name != ""
    ensures name == DefaultModel || (listing.Listed? && name in Available(listing.models))
    ensures listing.ListingFailed? ==> name == DefaultModel
    ensures listing.Listed? && Available(listing.models) == [] ==> name == DefaultModel
    ensures listing.Listed? && PreferredOrder[0] in Available(listing.models) ==> name == PreferredOrder[0]
    // a usable selection is the name used; otherwise the default
    ensures SelectModel(listing).Some? && SelectModel(listing).value != "" ==> name == SelectModel(listing).value
    ensures SelectModel(listing).None? ==> name == DefaultModel
    ensures SelectModel(listing) == Some("") ==> name == DefaultModel
  {
    var selected := SelectModel(listing);
    if selected.None? || selected.value == "" then DefaultModel else selected.value
  }

  /** `pat` occurs in `s` starting at index `k`. */
  predicate OccursAt(s: string, pat: string, k: nat) {
    k + |pat| <= |s| && s[k..k + |pat|] == pat
  }

  ghost predicate Occurs(s: string, pat: string) {
    exists k: nat :: OccursAt(s, pat, k)
  }

  /** Every non-overlapping occurrence of `pat`, scanning left to right, removed
      (Python's `s.replace(pat, '')`). */
  function RemoveAll(s: string, pat: string): (r: string)
    requires pat != []
    ensures |r| <= |s|
    decreases |s|
  {
    if |s| < |pat| then s
    else if s[..|pat|] == pat then RemoveAll(s[|pat|..], pat)
    else [s[0]] + RemoveAll(s[1..], pat)
  }

  /** The id the first backend is called with: the name without "models/". */
  function ModelId(name: string): (id: string)
    ensures |id| <= |name|
  {
    RemoveAll(name, ModelsPrefix)
  }

  /** A string in which the pattern does not occur is left as it is. */
  lemma {:induction false} RemoveAllAbsent(s: string, pat: string)
    requires pat != [] && !Occurs(s, pat)
    ensures RemoveAll(s, pat) == s
    decreases |s|
  {
    if |s| >= |pat| {
      assert !OccursAt(s, pat, 0);
      assert s[..|pat|] != pat;
      forall k: nat ensures !OccursAt(s[1..], pat, k) {
        assert !OccursAt(s, pat, k + 1);
        if k + |pat| <= |s[1..]| {
          assert s[1..][k..k + |pat|] == s[k + 1..k + 1 + |pat|];
        }
      }
      RemoveAllAbsent(s[1..], pat);
    }
  }

  /** A string without the last character of the pattern cannot contain it. */
  lemma LastCharAbsent(s: string, pat: string)
    requires pat != [] && pat[|pat| - 1] !in s
    ensures !Occurs(s, pat)
  {
    forall k: nat ensures !OccursAt(s, pat, k) {
      if k + |pat| <= |s| {
        assert s[k..k + |pat|][|pat| - 1] == s[k + |pat| - 1];
      }
    }
  }

  /** Stripping recovers the bare id from a resource name "models/<id>". */
  lemma StripModelsPrefix(id: string)
    requires !Occurs(id, ModelsPrefix)
    ensures ModelId(ModelsPrefix + id) == id
  {
    var s := ModelsPrefix + id;
    assert s[..|ModelsPrefix|] == ModelsPrefix;
    assert s[|ModelsPrefix|..] == id;
    RemoveAllAbsent(id, ModelsPrefix);
  }

  /** The ids the preferred names and the default resolve to. */
  lemma PreferredModelIds()
    ensures ModelId(PreferredOrder[0]) == "gemini-1.5-flash"
    ensures ModelId(PreferredOrder[1]) == "gemini-pro"
    ensures ModelId(PreferredOrder[2]) == "gemini-1.0-pro"
    ensures ModelId(DefaultModel) == "gemini-pro"
  {
    var ids := ["gemini-1.5-flash", "gemini-pro", "gemini-1.0-pro"];
    forall i | 0 <= i < 3 ensures ModelId(PreferredOrder[i]) == ids[i] {
      assert PreferredOrder[i] == ModelsPrefix + ids[i];
      LastCharAbsent(ids[i], ModelsPrefix);
      StripModelsPrefix(ids[i]);
    }
    LastCharAbsent(DefaultModel, ModelsPrefix);
    RemoveAllAbsent(DefaultModel, ModelsPrefix);
  }
}
