/** The OBD reading record shared by the ESP32 client and the mock vehicle. */
module Obd {
  import opened Wrappers
  import opened Text

  /**
   * One reading, fields in their positional order (rpm, speed, runtime). A field is
   * `None` when the `ATALL` parser met an empty field; equality is field-wise.
   */
  datatype Record = Record(rpm: Option<int>, speed: Option<int>, runtime: Option<int>)

  /** `OBDDataStructure()`: every field defaults to -1. */
  function Default(): (r: Record)
    ensures r.rpm == Some(-1) && r.speed == Some(-1) && r.runtime == Some(-1)
  {
    Record(Some(-1), Some(-1), Some(-1))
  }

  /** `OBDDataStructure(rpm, speed, runtime)` with all three values given. */
  function Of(rpm: int, speed: int, runtime: int): Record {
    Record(Some(rpm), Some(speed), Some(runtime))
  }

  /** How an f-string renders an optional int field. */
  function ShowField(v: Option<int>): string {
    match v
    case None => "None"
    case Some(n) => Show(n)
  }

  /** Reads a rendered field back: the inverse of ShowField. */
  function ReadField(s: string): Option<int> {
    if s == "None" then None else ParseInt(s, 10)
  }

  lemma ReadShowField(v: Option<int>)
    ensures ReadField(ShowField(v)) == v
  {
    if v.Some? {
      var s := Show(v.value);
      assert s != "None" by {
        assert DigitValue('e') == 14;
      }
      ParseShow(v.value);
    }
  }

  /** `str(record)`: `RPM: r, Speed: s, Runtime: t`. */
  function ToString(r: Record): (s: string)
    ensures StartsWith(s, "RPM: ")
  {
    var rest := ShowField(r.rpm) + ", Speed: " + ShowField(r.speed) + ", Runtime: " + ShowField(r.runtime);
    StartsWithConcat("RPM: ", rest);
    "RPM: " + rest
  }

  /** The three `label: value` fields of ToString, as split on `,`. */
  lemma ToStringFields(r: Record)
    ensures Split(ToString(r), ',') ==
      ["RPM: " + ShowField(r.rpm), " Speed: " + ShowField(r.speed), " Runtime: " + ShowField(r.runtime)]
  {
    var x, y, z := ShowField(r.rpm), ShowField(r.speed), ShowField(r.runtime);
    var a, b, c := "RPM: " + x, " Speed: " + y, " Runtime: " + z;
    ShowFieldClean(r.rpm);
    ShowFieldClean(r.speed);
    ShowFieldClean(r.runtime);
    assert ',' !in a && ',' !in b && ',' !in c;
    calc {
      ToString(r);
      "RPM: " + (x + ", Speed: " + y + ", Runtime: " + z);
      { assert ", Speed: " == [','] + " Speed: ";
        assert ", Runtime: " == [','] + " Runtime: "; }
      "RPM: " + (x + ([','] + " Speed: ") + y + ([','] + " Runtime: ") + z);
      { Regroup("RPM: ", x, ',', " Speed: ", y, " Runtime: ", z); }
      a + [','] + b + [','] + c;
      { Join3(a, b, c, ','); }
      Join([a, b, c], ',');
    }
    SplitJoin([a, b, c], ',');
  }

  lemma Regroup(p: string, x: string, sep: char, q: string, y: string, r: string, z: string)
    ensures p + (x + ([sep] + q) + y + ([sep] + r) + z) == (p + x) + [sep] + (q + y) + [sep] + (r + z)
  {
  }

  lemma Regroup3(p: string, x: string, q: string, y: string, r: string, z: string, sep: char)
    ensures p + x + ([sep] + q) + y + ([sep] + r) + z == (p + x) + [sep] + (q + y) + [sep] + (r + z)
  {
  }

  lemma ShowFieldClean(v: Option<int>)
    ensures ',' !in ShowField(v)
  {
  }

  /** Distinct records render to distinct strings. */
  lemma ToStringInjective(r1: Record, r2: Record)
    requires ToString(r1) == ToString(r2)
    ensures r1 == r2
  {
    ToStringFields(r1);
    ToStringFields(r2);
    var p1, p2 := Split(ToString(r1), ','), Split(ToString(r2), ',');
    assert p1 == p2;
    assert ShowField(r1.rpm) == p1[0][5..] == ShowField(r2.rpm);
    assert ShowField(r1.speed) == p1[1][8..] == ShowField(r2.speed);
    assert ShowField(r1.runtime) == p1[2][10..] == ShowField(r2.runtime);
    ReadShowField(r1.rpm);
    ReadShowField(r2.rpm);
    ReadShowField(r1.speed);
    ReadShowField(r2.speed);
    ReadShowField(r1.runtime);
    ReadShowField(r2.runtime);
  }
}
