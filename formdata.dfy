// The `form_data` dictionary the form submits and every later stage reads,
// with the `.get(key, default)` accessors those stages use.

module FormData {
  import opened Base
  import opened Splice

  /** A value of the form dictionary. */
  datatype Field =
    | Str(s: string)
    | Num(n: int)
    | Flag(b: bool)
    | Items(items: seq<string>)
    /** A dictionary of texts, in insertion order (`objetivos`, `api_specs`). */
    | Entries(entries: seq<(string, string)>)
    | Pictures(images: seq<Image>)

  type Form = map<string, Field>

  const FixCategory := "Fix/Bug/Incidente"
  const SpikeCategory := "Spike"
  const KaizenCategory := "Kaizen"
  const BusinessCategory := "Business"

  /** `form.get(key, default)` for a text field. */
  function GetStr(f: Form, key: string, default: string): string {
    if key in f && f[key].Str? then f[key].s else default
  }

  function GetNum(f: Form, key: string, default: int): int {
    if key in f && f[key].Num? then f[key].n else default
  }

  /** The truth value of `form.get(key, False)`. */
  predicate GetFlag(f: Form, key: string) {
    key in f && f[key].Flag? && f[key].b
  }

  /** `form.get(key, [])` for a list of texts. */
  function GetItems(f: Form, key: string): seq<string> {
    if key in f && f[key].Items? then f[key].items else []
  }

  /** `form.get(key, {})` for a dictionary of texts. */
  function GetEntries(f: Form, key: string): seq<(string, string)> {
    if key in f && f[key].Entries? then f[key].entries else []
  }

  function GetImages(f: Form, key: string): seq<Image> {
    if key in f && f[key].Pictures? then f[key].images else []
  }

  /** `d.get(key)` on a dictionary of texts: the first entry with that key. */
  function Lookup(entries: seq<(string, string)>, key: string): Option<string> {
    if entries == [] then None
    else if entries[0].0 == key then Some(entries[0].1)
    else Lookup(entries[1..], key)
  }

  /** The lookup finds a value exactly when some entry has the key, and then the first such entry's. */
  lemma {:induction false} LookupFirst(entries: seq<(string, string)>, key: string)
    ensures Lookup(entries, key).Some? <==> exists k :: 0 <= k < |entries| && entries[k].0 == key
    ensures Lookup(entries, key).Some? ==> exists k ::
      (0 <= k < |entries| && entries[k] == (key, Lookup(entries, key).value)
       && forall j :: 0 <= j < k ==> entries[j].0 != key)
  {
    if entries != [] && entries[0].0 != key {
      LookupFirst(entries[1..], key);
      var r := Lookup(entries[1..], key);
      if r.Some? {
        var k :| 0 <= k < |entries| - 1 && entries[1..][k] == (key, r.value) && forall j :: 0 <= j < k ==> entries[1..][j].0 != key;
        assert entries[k + 1] == (key, r.value);
        forall j | 0 <= j < k + 1 ensures entries[j].0 != key {
          if j > 0 { assert entries[j] == entries[1..][j - 1]; }
        }
      }
      if exists k :: 0 <= k < |entries| && entries[k].0 == key {
        var k :| 0 <= k < |entries| && entries[k].0 == key;
        assert entries[1..][k - 1] == entries[k];
      }
    }
  }

  /** The text of `d.get(key)` when it is truthy, that is present and non-empty. */
  function NonEmptyEntry(entries: seq<(string, string)>, key: string): (r: Option<string>)
    ensures r.Some? <==> Lookup(entries, key).Some? && Lookup(entries, key).value != []
    ensures r.Some? ==> r.value != [] && r == Lookup(entries, key)
    ensures r.None? ==> Lookup(entries, key).GetOr("") == []
  {
    match Lookup(entries, key)
    case Some(v) => if v == [] then None else Some(v)
    case None => None
  }

  /** The category `form_data.get('value_area', 'Business')`; an absent form is the empty map. */
  function Category(f: Form): string {
    GetStr(f, "value_area", BusinessCategory)
  }
}
