/**
 * How the weather lookup reads a location: JavaScript's `split(",")`, the
 * first piece taken as the city and the second, when there is one, as the
 * country. Nothing is trimmed and pieces after the second are ignored.
 */
module Location {
  import opened Wrappers

  const Comma: char := ','

  /** The pieces of `s` between commas, as `s.split(",")` returns them. */
  function Split(s: string): (parts: seq<string>)
    ensures |parts| >= 1
  {
    if s == [] then [""]
    else
      var rest := Split(s[1..]);
      if s[0] == Comma then [""] + rest
      else [[s[0]] + rest[0]] + rest[1..]
  }

  /** The pieces put back together with a comma between neighbours, as `parts.join(",")`. */
  function Join(parts: seq<string>): string
    requires |parts| >= 1
  {
    if |parts| == 1 then parts[0] else parts[0] + [Comma] + Join(parts[1..])
  }

  /** The city: the first piece. */
  function City(location: string): string {
    Split(location)[0]
  }

  /** The country: the second piece, absent (`undefined`) when there is no comma. */
  function Country(location: string): Option<string> {
    var parts := Split(location);
    if |parts| >= 2 then Some(parts[1]) else None
  }

  /** Splitting loses nothing: joining the pieces gives the location back, and no piece holds a comma. */
  lemma {:induction false} SplitJoin(s: string)
    ensures Join(Split(s)) == s
    ensures forall i :: 0 <= i < |Split(s)| ==> Comma !in Split(s)[i]
  {
    if s != [] {
      SplitJoin(s[1..]);
      var rest := Split(s[1..]);
      if s[0] == Comma {
        assert Split(s) == [""] + rest;
        assert Join(Split(s)) == "" + [Comma] + Join(rest);
      } else {
        assert Split(s) == [[s[0]] + rest[0]] + rest[1..];
        if |rest| == 1 {
          assert Join(Split(s)) == [s[0]] + rest[0];
        } else {
          assert Join(rest) == rest[0] + [Comma] + Join(rest[1..]);
          assert Join(Split(s)) == [s[0]] + rest[0] + [Comma] + Join(rest[1..]);
        }
        forall i | 0 <= i < |Split(s)| ensures Comma !in Split(s)[i] {
          if i > 0 { assert Split(s)[i] == rest[i]; }
        }
      }
    }
  }

  /** A comma-free prefix followed by a comma becomes the first piece, and the rest is split on its own. */
  lemma {:induction false} SplitAfterComma(a: string, b: string)
    requires Comma !in a
    ensures Split(a + [Comma] + b) == [a] + Split(b)
  {
    if a == [] {
      assert a + [Comma] + b == [Comma] + b;
      assert ([Comma] + b)[1..] == b;
    } else {
      assert (a + [Comma] + b)[1..] == a[1..] + [Comma] + b;
      SplitAfterComma(a[1..], b);
      assert [a[0]] + a[1..] == a;
    }
  }

  /** A comma-free text is a single piece. */
  lemma {:induction false} SplitWithoutComma(s: string)
    requires Comma !in s
    ensures Split(s) == [s]
  {
    if s != [] {
      SplitWithoutComma(s[1..]);
      assert [s[0]] + s[1..] == s;
    }
  }

  /** With no comma the city is the whole location and the country is absent. */
  lemma NoCommaIsCityOnly(location: string)
    requires Comma !in location
    ensures City(location) == location
    ensures Country(location) == None
  {
    SplitWithoutComma(location);
  }

  /**
   * With a comma, the city is the text before the first comma and the country
   * the text between the first and the second comma (up to the end when there
   * is no second); neither is trimmed.
   */
  lemma FirstCommaSeparates(city: string, rest: string)
    requires Comma !in city
    ensures City(city + [Comma] + rest) == city
    ensures Country(city + [Comma] + rest) == Some(City(rest))
  {
    SplitAfterComma(city, rest);
  }

  /** The country is absent exactly when the location has no comma. */
  lemma CountryAbsentIff(location: string)
    ensures Country(location) == None <==> Comma !in location
  {
    SplitJoin(location);
    var parts := Split(location);
    if |parts| == 1 {
      assert Join(parts) == parts[0];
    } else {
      assert location == parts[0] + [Comma] + Join(parts[1..]);
      assert location[|parts[0]|] == Comma;
    }
  }

  /** The city is a comma-free prefix of the location, followed by a comma whenever it is not all of it. */
  lemma CityIsPrefix(location: string)
    ensures Comma !in City(location)
    ensures |City(location)| <= |location| && location[..|City(location)|] == City(location)
    ensures |City(location)| < |location| ==> location[|City(location)|] == Comma
  {
    SplitJoin(location);
    var parts := Split(location);
    if |parts| > 1 {
      assert location == parts[0] + ([Comma] + Join(parts[1..]));
    }
  }

  /** Anything after the second comma plays no part: city and country depend on the first two pieces only. */
  lemma TailIgnored(city: string, country: string, tail: string)
    requires Comma !in city && Comma !in country
    ensures City(city + [Comma] + country + [Comma] + tail) == city
    ensures Country(city + [Comma] + country + [Comma] + tail) == Some(country)
  {
    var rest := country + [Comma] + tail;
    assert city + [Comma] + country + [Comma] + tail == city + [Comma] + rest;
    FirstCommaSeparates(city, rest);
    FirstCommaSeparates(country, tail);
  }

  /** The test location "London, UK": city "London", country " UK" with its leading space kept. */
  lemma LondonUK()
    ensures City("London, UK") == "London"
    ensures Country("London, UK") == Some(" UK")
  {
    assert "London, UK" == "London" + [Comma] + " UK";
    FirstCommaSeparates("London", " UK");
    NoCommaIsCityOnly(" UK");
  }
}
