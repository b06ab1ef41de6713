/** `GetAllCountryQueryHandler.Handle`: the live countries mapped one by one
    to view models, or an empty list with an explanatory success message. */
module GetAllCountryQueries {
  import opened Wrappers
  import opened Repositories
  import opened Countries

  const NoDataMessage := "No country data found."

  /** The projection `new CountryVM { ... }`. */
  function ToView(e: Entity<Country>): CountryView {
    CountryView(e.data.fullname, e.data.shortname, e.data.description, e.data.code2, e.data.code3)
  }

  /** `Handle`, given what `GetAllAsync` returned (`None` for null). */
  function GetAllCountries(entities: Option<seq<Entity<Country>>>): (r: Outcome<seq<CountryView>>)
    ensures r.Success?
    ensures r.value == [] <==> entities.None? || entities.value == []
    ensures r.value == [] ==> r.successes == [NoDataMessage]
    ensures r.value != [] ==> (r.successes == [] && |r.value| == |entities.value|
      && forall i :: 0 <= i < |r.value| ==> r.value[i] == ToView(entities.value[i]))
  {
    if entities.None? || |entities.value| == 0 then Success([], [NoDataMessage])
    else
      var rows := entities.value;
      Success(seq(|rows|, i requires 0 <= i < |rows| => ToView(rows[i])), [])
  }

  /** The view model carries every field of the entity unchanged, and two
      entities with the same country fields get the same view. */
  lemma ViewCopiesFields(e: Entity<Country>, f: Entity<Country>)
    ensures var v := ToView(e);
      && v.fullname == e.data.fullname && v.shortname == e.data.shortname
      && v.description == e.data.description && v.code2 == e.data.code2 && v.code3 == e.data.code3
    ensures ToView(e) == ToView(f) <==> e.data == f.data
  {
  }

  /** Over the repository: every live country is shown ... */
  lemma LiveCountriesShown(rows: seq<Entity<Country>>)
    ensures var r := GetAllCountries(Some(GetAll(rows)));
      forall k :: 0 <= k < |rows| && Live(rows[k]) ==> ToView(rows[k]) in r.value
  {
    var live := GetAll(rows);
    var r := GetAllCountries(Some(live));
    forall k | 0 <= k < |rows| && Live(rows[k])
      ensures ToView(rows[k]) in r.value
    {
      var j :| 0 <= j < |live| && live[j] == rows[k];
      assert r.value[j] == ToView(rows[k]);
    }
  }

  /** ... every view shown comes from a live country, in table order: the
      views of any front part of the table come before those of the rest ... */
  lemma OnlyLiveCountriesShown(rows: seq<Entity<Country>>)
    ensures var live := GetAll(rows);
      var r := GetAllCountries(Some(live));
      |r.value| == |live| && forall i :: 0 <= i < |r.value| ==> live[i] in rows && Live(live[i]) && r.value[i] == ToView(live[i])
    ensures forall k :: 0 <= k <= |rows| ==>
      GetAllCountries(Some(GetAll(rows))).value
        == GetAllCountries(Some(GetAll(rows[..k]))).value + GetAllCountries(Some(GetAll(rows[k..]))).value
  {
    var live := GetAll(rows);
    var r := GetAllCountries(Some(live));
    if live == [] {
      assert r.value == [];
    }
    forall k | 0 <= k <= |rows|
      ensures GetAllCountries(Some(GetAll(rows))).value
        == GetAllCountries(Some(GetAll(rows[..k]))).value + GetAllCountries(Some(GetAll(rows[k..]))).value
    {
      assert rows == rows[..k] + rows[k..];
      GetAllInTableOrder(rows[..k], rows[k..]);
      ViewsAppend(GetAll(rows[..k]), GetAll(rows[k..]));
    }
  }

  /** Listing two runs of entities one after the other lists their views one
      after the other. */
  lemma ViewsAppend(a: seq<Entity<Country>>, b: seq<Entity<Country>>)
    ensures GetAllCountries(Some(a + b)).value == GetAllCountries(Some(a)).value + GetAllCountries(Some(b)).value
  {
    if a == [] {
      assert a + b == b;
    } else if b == [] {
      assert a + b == a;
    }
  }

  /** ... and the list is empty, with the explanatory message, exactly when
      no country is live. */
  lemma NoLiveCountryExplained(rows: seq<Entity<Country>>)
    ensures var r := GetAllCountries(Some(GetAll(rows)));
      (r.value == [] <==> forall k :: 0 <= k < |rows| ==> !Live(rows[k]))
      && (r.value == [] ==> r.successes == [NoDataMessage])
  {
    var live := GetAll(rows);
    LiveCountriesShown(rows);
    if live != [] {
      var k :| 0 <= k < |rows| && rows[k] == live[0];
      assert Live(rows[k]);
    }
  }

  /** The case the unit test checks: one stored country comes back as one
      view with its full name. */
  lemma SingleCountryListed()
    ensures var malaysia := Entity(1, true, false, Country("Malaysia", "MAS", Some("Malaysia Boleh"), "MY", "MYS"));
      var r := GetAllCountries(Some([malaysia]));
      r.Success? && |r.value| == 1 && r.value[0].fullname == "Malaysia"
  {
  }

  /** ... and an empty store gives an empty list with the explanatory message. */
  lemma EmptyStoreExplained()
    ensures GetAllCountries(Some([])) == Success([], [NoDataMessage])
    ensures GetAllCountries(None) == Success([], [NoDataMessage])
  {
  }
}
