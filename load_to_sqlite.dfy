/** The review loader's date conversion: `dd.mm.yyyy` becomes `yyyy-mm-dd`. */
module LoadToSqlite {
  import opened Strings

  /** `d.m.y` */
  function Dotted(d: string, m: string, y: string): string {
    d + "." + m + "." + y
  }

  /** Three dot-free parts joined by dots split back into those parts. */
  lemma SplitDotted(d: string, m: string, y: string)
    requires '.' !in d && '.' !in m && '.' !in y
    ensures Split(Dotted(d, m, y), '.') == [d, m, y]
  {
    SplitJoin([d, m, y], '.');
    assert Join([d, m, y], '.') == d + "." + m + "." + y by {
      assert Join([y], '.') == y;
      assert Join([m, y], '.') == m + "." + y;
    }
  }

  /**
   * `ddmmyyyy_to_iso`: a value made of exactly three dot-separated parts `d.m.y` becomes
   * `y-m-d`, whatever the parts hold (they are not checked to be digits); a value with any
   * other number of parts is kept as it is.
   */
  function DdmmyyyyToIso(raw: string): (r: string)
    ensures forall d, m, y :: '.' !in d && '.' !in m && '.' !in y && raw == Dotted(d, m, y) ==>
      r == y + "-" + m + "-" + d
    ensures |Split(raw, '.')| != 3 ==> r == raw
  {
    var parts := Split(raw, '.');
    var r := if |parts| != 3 then raw else parts[2] + "-" + parts[1] + "-" + parts[0];
    assert forall d, m, y :: '.' !in d && '.' !in m && '.' !in y && raw == Dotted(d, m, y) ==>
      r == y + "-" + m + "-" + d by {
      forall d, m, y | '.' !in d && '.' !in m && '.' !in y && raw == Dotted(d, m, y)
        ensures r == y + "-" + m + "-" + d
      {
        SplitDotted(d, m, y);
      }
    }
    r
  }

  /** The conversion keeps the length of a three-part value. */
  lemma KeepsLength(raw: string)
    requires |Split(raw, '.')| == 3
    ensures |DdmmyyyyToIso(raw)| == |raw|
  {
    var p := Split(raw, '.');
    JoinSplit(raw, '.');
    assert raw == Join(p, '.');
    assert Join(p, '.') == p[0] + "." + (p[1] + "." + p[2]) by {
      assert p[1..][1..] == [p[2]];
      assert Join(p[1..][1..], '.') == p[2];
      assert Join(p[1..], '.') == p[1] + "." + p[2];
    }
  }

  /** A value without a dot is left alone. */
  lemma NoDotKept(raw: string)
    requires '.' !in raw
    ensures DdmmyyyyToIso(raw) == raw
  {
    SplitJoin([raw], '.');
    assert Join([raw], '.') == raw;
  }

  /** An example from the review files. */
  lemma Example()
    ensures DdmmyyyyToIso("31.12.2024") == "2024-12-31"
  {
    assert Dotted("31", "12", "2024") == "31.12.2024";
    assert "2024" + "-" + "12" + "-" + "31" == "2024-12-31";
  }
}
