/**
 * `CampaignDataCleaner` and `DataQualityAnalyzer`. Every cleaning step works
 * on a copy of its argument; since a Dafny `map` is a value, the caller's
 * dictionary can never change, which is what the deep copies ensure.
 */
module CampaignDataCleaner {
  import opened Wrappers
  import opened PyText
  import opened PyValue

  // ---------------------------------------------------------------------
  // apply_field_corrections

  /** `CampaignDataCleaner.apply_field_corrections(data)`: `cmp_eur` moves to `cpm_eur`. */
  function Corrected(d: Dict): (r: Dict)
    ensures "cmp_eur" !in r
    ensures "cmp_eur" in d ==> "cpm_eur" in r && r["cpm_eur"] == d["cmp_eur"]
    ensures "cmp_eur" !in d ==> r == d
    ensures forall k :: k != "cmp_eur" && k != "cpm_eur" ==> (k in r <==> k in d)
    ensures forall k :: k in r && k != "cpm_eur" ==> k in d && r[k] == d[k]
  {
    if "cmp_eur" in d then (d - {"cmp_eur"})["cpm_eur" := d["cmp_eur"]] else d
  }

  /** Correcting twice changes nothing more. */
  lemma CorrectedIdempotent(d: Dict)
    ensures Corrected(Corrected(d)) == Corrected(d)
  {
  }

  // ---------------------------------------------------------------------
  // normalize_field_names

  /** The `field_mappings` table, in its insertion order. */
  const FieldMappings: seq<(string, string)> := [
    ("campaignName", "name"),
    ("impressionGoal", "impression_goal"),
    ("budgetEur", "budget_eur"),
    ("cpmEur", "cpm_eur"),
    ("runtimeStart", "runtime_start"),
    ("runtimeEnd", "runtime_end"),
    ("isRunning", "is_running"),
    ("createdAt", "created_at"),
    ("updatedAt", "updated_at"),
    ("impressions_goal", "impression_goal"),
    ("campaign_budget", "budget_eur"),
    ("cost_per_mille", "cpm_eur"),
    ("buyer_name", "buyer")
  ]

  /** `data[target] = data.pop(source)` when `source` is present. */
  function Rename(d: Dict, source: string, target: string): Dict {
    if source in d then (d - {source})[target := d[source]] else d
  }

  /** The renames applied one after another, as the loop does. */
  function RenameAll(d: Dict, m: seq<(string, string)>): Dict
    decreases |m|
  {
    if m == [] then d else Rename(RenameAll(d, m[..|m| - 1]), m[|m| - 1].0, m[|m| - 1].1)
  }

  /** Sources are distinct, and no source is also a target. */
  predicate WellFormed(m: seq<(string, string)>) {
    (forall i, j :: 0 <= i < |m| && 0 <= j < |m| ==> m[i].0 != m[j].1) &&
    (forall i, j :: 0 <= i < j < |m| ==> m[i].0 != m[j].0)
  }

  predicate IsSource(m: seq<(string, string)>, k: string) {
    exists i :: 0 <= i < |m| && m[i].0 == k
  }

  /** The last mapping entry onto `t` whose source is present in `d`. */
  function LastHit(d: Dict, m: seq<(string, string)>, t: string): (r: Option<nat>)
    ensures r.Some? ==> r.value < |m| && m[r.value].1 == t && m[r.value].0 in d
    ensures r.Some? ==> forall j :: r.value < j < |m| && m[j].1 == t ==> m[j].0 !in d
    ensures r.None? ==> forall j :: 0 <= j < |m| && m[j].1 == t ==> m[j].0 !in d
    decreases |m|
  {
    if m == [] then None
    else if m[|m| - 1].1 == t && m[|m| - 1].0 in d then Some(|m| - 1)
    else LastHit(d, m[..|m| - 1], t)
  }

  /**
   * What the renamed dictionary holds under `k`, read off the original: a
   * source is gone; a target takes the value of its last present source; any
   * other key is untouched.
   */
  function Expected(d: Dict, m: seq<(string, string)>, k: string): Option<Value> {
    if IsSource(m, k) then None
    else
      match LastHit(d, m, k)
      case Some(j) => Some(d[m[j].0])
      case None => if k in d then Some(d[k]) else None
  }

  lemma RenameAllStep(d: Dict, m: seq<(string, string)>, k: string)
    requires WellFormed(m) && m != []
    requires var p := m[..|m| - 1]; var r := RenameAll(d, p);
             forall x :: (x in r <==> Expected(d, p, x).Some?) && (x in r ==> r[x] == Expected(d, p, x).value)
    ensures var r := RenameAll(d, m);
            (k in r <==> Expected(d, m, k).Some?) && (k in r ==> r[k] == Expected(d, m, k).value)
  {
    var p := m[..|m| - 1];
    var (o, n) := m[|m| - 1];
    assert WellFormed(p);
    var r := RenameAll(d, p);
    assert IsSource(m, k) <==> IsSource(p, k) || k == o by {
      if IsSource(m, k) {
        var i :| 0 <= i < |m| && m[i].0 == k;
        if i < |p| { assert p[i] == m[i]; }
      }
      if IsSource(p, k) {
        var i :| 0 <= i < |p| && p[i].0 == k;
        assert m[i] == p[i];
      }
    }
    forall i | 0 <= i < |p| ensures p[i].0 != o && p[i].1 != o {
      assert p[i] == m[i];
    }
    assert !IsSource(p, o);
    assert LastHit(d, p, o).None?;
    forall i | 0 <= i < |m| ensures m[i].0 != n {
      assert m[|m| - 1].1 == n;
    }
    assert !IsSource(m, n);
    assert o != n by {
      assert m[|m| - 1].0 != m[|m| - 1].1;
    }
    var r2 := RenameAll(d, m);
    assert r2 == Rename(r, o, n);
    if k == o {
      assert IsSource(m, k);
      assert k !in r2;
    } else if k != n {
      assert LastHit(d, m, k) == LastHit(d, p, k);
      assert Expected(d, m, k) == Expected(d, p, k);
      assert (k in r2 <==> k in r) && (k in r2 ==> r2[k] == r[k]);
    } else {
      assert !IsSource(p, o) && LastHit(d, p, o).None?;
      assert Expected(d, p, o) == (if o in d then Some(d[o]) else None);
      assert (o in r <==> o in d) && (o in r ==> r[o] == d[o]);
      if o in d {
        assert LastHit(d, m, n) == Some(|m| - 1);
      } else {
        assert LastHit(d, m, n) == LastHit(d, p, n);
        assert Expected(d, m, n) == Expected(d, p, n);
      }
    }
  }

  /** The renamed dictionary agrees with `Expected` at every key. */
  lemma {:induction false} RenameAllSpec(d: Dict, m: seq<(string, string)>)
    requires WellFormed(m)
    ensures var r := RenameAll(d, m);
            forall k :: (k in r <==> Expected(d, m, k).Some?) && (k in r ==> r[k] == Expected(d, m, k).value)
    decreases |m|
  {
    if m != [] {
      var p := m[..|m| - 1];
      assert WellFormed(p);
      RenameAllSpec(d, p);
      forall k {
        RenameAllStep(d, m, k);
      }
    }
  }

  lemma FieldMappingsWellFormed()
    ensures WellFormed(FieldMappings)
  {
    SourcesAreNotTargets();
    SourcesDistinct();
  }

  lemma SourcesAreNotTargets()
    ensures forall i, j :: 0 <= i < |FieldMappings| && 0 <= j < |FieldMappings| ==> FieldMappings[i].0 != FieldMappings[j].1
  {
  }

  lemma SourcesDistinct()
    ensures forall i, j :: 0 <= i < j < |FieldMappings| ==> FieldMappings[i].0 != FieldMappings[j].0
  {
  }

  /**
   * `CampaignDataCleaner.normalize_field_names(data)`: the mapping loop,
   * one rename per table entry.
   */
  method NormalizeFieldNames(data: Dict) returns (cleaned: Dict)
    ensures cleaned == RenameAll(data, FieldMappings)
  {
    cleaned := data;
    var i := 0;
    while i < |FieldMappings|
      invariant 0 <= i <= |FieldMappings|
      invariant cleaned == RenameAll(data, FieldMappings[..i])
    {
      var (source, target) := FieldMappings[i];
      assert FieldMappings[..i + 1][..i] == FieldMappings[..i];
      if source in cleaned {
        var value := cleaned[source];
        cleaned := cleaned - {source};
        cleaned := cleaned[target := value];
      }
      i := i + 1;
    }
    assert FieldMappings[..i] == FieldMappings;
  }

  /** After normalising no source name is left, and every other key holds what `Expected` says. */
  lemma NormalizedShape(d: Dict, k: string)
    ensures IsSource(FieldMappings, k) ==> k !in RenameAll(d, FieldMappings)
    ensures var r := RenameAll(d, FieldMappings);
            (k in r <==> Expected(d, FieldMappings, k).Some?) && (k in r ==> r[k] == Expected(d, FieldMappings, k).value)
  {
    FieldMappingsWellFormed();
    RenameAllSpec(d, FieldMappings);
  }

  // ---------------------------------------------------------------------
  // clean_string_fields

  const StringFields: seq<string> := ["name", "buyer", "runtime", "campaign_type"]

  /** The value left under key `k` once the string values of `fields` are trimmed. */
  function TrimmedField(fields: seq<string>, k: string, v: Value): Value {
    if k in fields && v.VStr? then VStr(Strip(v.s)) else v
  }

  /** What `clean_string_fields` returns: same keys, the four text fields trimmed when they hold text. */
  function Cleaned(d: Dict): (r: Dict)
    ensures r.Keys == d.Keys
    ensures forall k :: k in d ==> r[k] == TrimmedField(StringFields, k, d[k])
  {
    map k | k in d :: TrimmedField(StringFields, k, d[k])
  }

  /** The trimming loop of `clean_string_fields`, over a list of field names. */
  method TrimFields(data: Dict, fields: seq<string>) returns (cleaned: Dict)
    ensures cleaned.Keys == data.Keys
    ensures forall k :: k in data ==> cleaned[k] == TrimmedField(fields, k, data[k])
  {
    cleaned := data;
    var i := 0;
    while i < |fields|
      invariant 0 <= i <= |fields|
      invariant cleaned.Keys == data.Keys
      invariant forall k :: k in data ==> cleaned[k] == TrimmedField(fields[..i], k, data[k])
    {
      cleaned := TrimNext(data, fields, i, cleaned);
      i := i + 1;
    }
    assert fields[..i] == fields;
  }

  /** One pass of the trimming loop: field `i` trimmed when it holds text. */
  method TrimNext(data: Dict, fields: seq<string>, i: nat, before: Dict) returns (after: Dict)
    requires i < |fields|
    requires before.Keys == data.Keys
    requires forall k :: k in data ==> before[k] == TrimmedField(fields[..i], k, data[k])
    ensures after.Keys == data.Keys
    ensures forall k :: k in data ==> after[k] == TrimmedField(fields[..i + 1], k, data[k])
  {
    var field := fields[i];
    after := if field in before && before[field].VStr? then before[field := VStr(Strip(before[field].s))] else before;
    TrimStep(data, fields[..i], field, before, after);
    assert fields[..i + 1] == fields[..i] + [field];
  }

  lemma TrimStep(data: Dict, done: seq<string>, field: string, before: Dict, after: Dict)
    requires before.Keys == data.Keys
    requires forall k :: k in data ==> before[k] == TrimmedField(done, k, data[k])
    requires after == if field in before && before[field].VStr? then before[field := VStr(Strip(before[field].s))] else before
    ensures after.Keys == data.Keys
    ensures forall k :: k in data ==> after[k] == TrimmedField(done + [field], k, data[k])
  {
    forall k | k in data ensures after[k] == TrimmedField(done + [field], k, data[k]) {
      assert k in done + [field] <==> k in done || k == field;
      if k == field && data[k].VStr? {
        StripIdempotent(data[k].s);
      }
    }
  }

  /** `CampaignDataCleaner.clean_string_fields(data)` */
  method CleanStringFields(data: Dict) returns (cleaned: Dict)
    ensures cleaned == Cleaned(data)
  {
    cleaned := TrimFields(data, StringFields);
  }

  /** Only the four text fields change, and only when they hold text. */
  lemma CleanedChangesOnlyText(d: Dict, k: string)
    requires k in d && Cleaned(d)[k] != d[k]
    ensures k in StringFields && d[k].VStr? && Cleaned(d)[k] == VStr(Strip(d[k].s))
  {
  }

  /** Trimming twice changes nothing more. */
  lemma CleanedIdempotent(d: Dict)
    ensures Cleaned(Cleaned(d)) == Cleaned(d)
  {
    forall k | k in d ensures Cleaned(Cleaned(d))[k] == Cleaned(d)[k] {
      if k in StringFields && d[k].VStr? {
        StripIdempotent(d[k].s);
      }
    }
  }

  // ---------------------------------------------------------------------
  // apply_all_cleaning

  /** `CampaignDataCleaner.apply_all_cleaning(data)`: corrections, then renames, then trims. */
  method ApplyAllCleaning(data: Dict) returns (cleaned: Dict)
    ensures cleaned == Cleaned(RenameAll(Corrected(data), FieldMappings))
  {
    cleaned := Corrected(data);
    cleaned := NormalizeFieldNames(cleaned);
    cleaned := CleanStringFields(cleaned);
  }

  // ---------------------------------------------------------------------
  // DataQualityAnalyzer

  /** An empty field: `None` or a whitespace-only string. */
  predicate IsEmptyValue(v: Value) {
    v.VNone? || (v.VStr? && Strip(v.s) == [])
  }

  /** `DataQualityAnalyzer.identify_empty_fields(data_dict)`; the dictionary order is not modelled. */
  method IdentifyEmptyFields(d: Dict) returns (empty: seq<string>)
    ensures forall k :: k in empty <==> k in d && IsEmptyValue(d[k])
    ensures forall i, j :: 0 <= i < j < |empty| ==> empty[i] != empty[j]
  {
    empty := [];
    var todo := d.Keys;
    while todo != {}
      invariant todo <= d.Keys
      invariant forall k :: k in empty <==> k in d && k !in todo && IsEmptyValue(d[k])
      invariant forall i, j :: 0 <= i < j < |empty| ==> empty[i] != empty[j]
      decreases |todo|
    {
      var k :| k in todo;
      if d[k].VNone? {
        empty := empty + [k];
      } else if d[k].VStr? && Strip(d[k].s) == [] {
        empty := empty + [k];
      }
      todo := todo - {k};
    }
  }

  /** The base name the analyzer groups by: lower case, underscores and spaces removed. */
  function BaseName(k: string): string {
    RemoveChar(RemoveChar(Lower(k), '_'), ' ')
  }

  function Bases(names: set<string>): set<string> {
    set k | k in names :: BaseName(k)
  }

  function Group(names: set<string>, b: string): set<string> {
    set k | k in names && BaseName(k) == b
  }

  /** The grouping of a set of field names by base name. */
  function Variations(names: set<string>): map<string, set<string>> {
    map b | b in Bases(names) :: Group(names, b)
  }

  /** Each name sits in the group of its base name, and only there. */
  lemma VariationsExact(names: set<string>, k: string, b: string)
    requires b in Variations(names)
    ensures k in Variations(names)[b] <==> k in names && BaseName(k) == b
    ensures k in names ==> BaseName(k) in Variations(names)
  {
  }

  /** Every field name of every record in the list. */
  function AllNames(list: seq<Dict>): set<string> {
    set i, k | 0 <= i < |list| && k in list[i] :: k
  }

  /** `DataQualityAnalyzer.analyze_field_variations(data_list)` */
  method AnalyzeFieldVariations(list: seq<Dict>) returns (variations: map<string, set<string>>)
    ensures variations == Variations(AllNames(list))
  {
    variations := map[];
    assert variations == Variations({});
    var i := 0;
    while i < |list|
      invariant 0 <= i <= |list|
      invariant variations == Variations(AllNames(list[..i]))
    {
      AllNamesStep(list, i);
      variations := AddFieldNames(variations, AllNames(list[..i]), list[i]);
      i := i + 1;
    }
    assert list[..i] == list;
  }

  /** The inner loop of `analyze_field_variations`: every key of one record joins its group. */
  method AddFieldNames(variations: map<string, set<string>>, ghost seen: set<string>, d: Dict)
    returns (result: map<string, set<string>>)
    requires variations == Variations(seen)
    ensures result == Variations(seen + d.Keys)
  {
    result := variations;
    ghost var done := seen;
    var todo := d.Keys;
    while todo != {}
      invariant todo <= d.Keys
      invariant done == seen + (d.Keys - todo)
      invariant result == Variations(done)
      decreases |todo|
    {
      var k :| k in todo;
      var base := BaseName(k);
      var group := if base in result then result[base] else {};
      VariationsAdd(done, k);
      result := result[base := group + {k}];
      done := done + {k};
      todo := todo - {k};
    }
    assert done == seen + d.Keys;
  }

  lemma BasesAdd(names: set<string>, k: string)
    ensures Bases(names + {k}) == Bases(names) + {BaseName(k)}
  {
  }

  lemma GroupAdd(names: set<string>, k: string, c: string)
    ensures Group(names + {k}, c) == Group(names, c) + (if BaseName(k) == c then {k} else {})
  {
  }

  lemma VariationsAdd(names: set<string>, k: string)
    ensures var v := Variations(names); var b := BaseName(k);
            Variations(names + {k}) == v[b := (if b in v then v[b] else {}) + {k}]
  {
    var v := Variations(names);
    var b := BaseName(k);
    var w := Variations(names + {k});
    var u := v[b := (if b in v then v[b] else {}) + {k}];
    BasesAdd(names, k);
    assert w.Keys == u.Keys;
    forall c | c in w ensures w[c] == u[c] {
      VariationsAddAt(names, k, c);
    }
  }

  /** One group of `VariationsAdd`. */
  lemma VariationsAddAt(names: set<string>, k: string, c: string)
    requires c in Bases(names + {k})
    ensures var v := Variations(names); var b := BaseName(k);
            Variations(names + {k})[c] == v[b := (if b in v then v[b] else {}) + {k}][c]
  {
    var v := Variations(names);
    var b := BaseName(k);
    GroupAdd(names, k, c);
    BasesAdd(names, k);
    if c == b {
      if b !in v {
        GroupOutside(names, b);
      }
    } else {
      assert c in v;
    }
  }

  /** No name has a base outside `Bases`. */
  lemma GroupOutside(names: set<string>, b: string)
    requires b !in Bases(names)
    ensures Group(names, b) == {}
  {
    forall x | x in names ensures BaseName(x) != b {
      assert BaseName(x) in Bases(names);
    }
  }

  lemma AllNamesStep(list: seq<Dict>, i: nat)
    requires i < |list|
    ensures AllNames(list[..i + 1]) == AllNames(list[..i]) + list[i].Keys
  {
    var a := list[..i + 1];
    var b := list[..i];
    forall k | k in AllNames(a) ensures k in AllNames(b) + list[i].Keys {
      var j :| 0 <= j < |a| && k in a[j];
      if j < i { assert a[j] == b[j]; }
    }
    forall k | k in AllNames(b) + list[i].Keys ensures k in AllNames(a) {
      if k in list[i].Keys {
        assert a[i] == list[i];
      } else {
        var j :| 0 <= j < |b| && k in b[j];
        assert a[j] == b[j];
      }
    }
  }
}
