/** What the machine's screen shows: one of four statuses, chosen in a
    fixed order of preference from the current stock, and its text. */
module Display {
  import opened Failures
  import opened Brewing

  /** The four statuses, in order of preference. */
  datatype Status = AddBeansAndWater | AddBeans | AddWater | EspressosLeft(count: nat)

  /** The status for stock `s`. A resource is short when it cannot supply a
      single espresso; otherwise the screen shows how many singles the stock
      still allows, the largest count both resources can cover. */
  function StatusOf(s: Stock): (st: Status)
    ensures st == AddBeansAndWater <==> s.beans < Single.spoons && s.water < Single.millilitres
    ensures st == AddBeans <==> s.beans < Single.spoons && Single.millilitres <= s.water
    ensures st == AddWater <==> Single.spoons <= s.beans && s.water < Single.millilitres
    ensures st.EspressosLeft? ==> 1 <= st.count
    ensures st.EspressosLeft? ==> st.count * Single.spoons <= s.beans && st.count * Single.millilitres <= s.water
    ensures st.EspressosLeft? ==> s.beans < (st.count + 1) * Single.spoons || s.water < (st.count + 1) * Single.millilitres
  {
    var noBeans := s.beans < Single.spoons;
    var noWater := s.water < Single.millilitres;
    if noBeans && noWater then AddBeansAndWater
    else if noBeans then AddBeans
    else if noWater then AddWater
    else EspressosLeft(Min(s.beans / Single.spoons, s.water / Single.millilitres))
  }

  /** The count on the screen is the number of single espressos that can
      really be brewed one after another. */
  lemma StatusCountsSingles(s: Stock)
    ensures StatusOf(s).EspressosLeft? ==> StatusOf(s).count == Makeable(s)
    ensures !StatusOf(s).EspressosLeft? ==> Makeable(s) == 0
  {
    MakeableIsLimitingResource(s);
  }

  /** The status predicts the outcome of brewing: a single succeeds exactly
      when a count is shown, a double exactly when the count is at least
      two, and a failure names the resource the status asks for. */
  lemma StatusPredictsBrew(s: Stock)
    ensures Brew(s, Single).result.Ok? <==> StatusOf(s).EspressosLeft?
    ensures Brew(s, Double).result.Ok? <==> StatusOf(s).EspressosLeft? && 2 <= StatusOf(s).count
    ensures Brew(s, Single).result == Err(NoBeans) <==> StatusOf(s) == AddBeansAndWater || StatusOf(s) == AddBeans
    ensures Brew(s, Single).result == Err(NoWater) <==> StatusOf(s) == AddWater
  {
  }

  /** Each successful single espresso lowers the count by exactly one. */
  lemma SingleLowersCount(s: Stock)
    requires StatusOf(s).EspressosLeft?
    ensures var after := StatusOf(Brew(s, Single).after);
            if StatusOf(s).count == 1 then !after.EspressosLeft?
            else after == EspressosLeft(StatusOf(s).count - 1)
  {
  }

  /** The decimal digits of `n`, most significant first, with no leading zero. */
  function Decimal(n: nat): (d: string)
    ensures 1 <= |d|
    ensures forall i :: 0 <= i < |d| ==> '0' <= d[i] <= '9'
    decreases n
  {
    if n < 10 then [DigitChar(n)] else Decimal(n / 10) + [DigitChar(n % 10)]
  }

  function DigitChar(k: nat): (c: char)
    requires k < 10
  {
    ('0' as int + k) as char
  }

  /** The number a string of decimal digits denotes. */
  function DecimalValue(d: string): nat
    requires forall i :: 0 <= i < |d| ==> '0' <= d[i] <= '9'
  {
    if d == [] then 0
    else DecimalValue(d[..|d| - 1]) * 10 + (d[|d| - 1] as int - '0' as int)
  }

  /** Reading back the digits of `n` gives `n`. */
  lemma {:induction false} DecimalRoundTrip(n: nat)
    ensures DecimalValue(Decimal(n)) == n
    decreases n
  {
    if 10 <= n {
      DecimalRoundTrip(n / 10);
      var d := Decimal(n);
      assert d[..|d| - 1] == Decimal(n / 10);
    }
  }

  /** The text of a status as the screen shows it. */
  function Message(st: Status): string
  {
    match st
    case AddBeansAndWater => "Add beans and water"
    case AddBeans => "Add beans"
    case AddWater => "Add water"
    case EspressosLeft(n) => Decimal(n) + " Espressos left"
  }

  /** Different statuses never show the same text, so the text tells which
      one of the four messages, and which count, the machine displays. */
  lemma {:induction false} MessageIsUnambiguous(a: Status, b: Status)
    ensures Message(a) == Message(b) ==> a == b
  {
    var suffix := " Espressos left";
    if a.EspressosLeft? && b.EspressosLeft? {
      if Message(a) == Message(b) {
        var m := Message(a);
        assert m[..|m| - |suffix|] == Decimal(a.count);
        assert m[..|m| - |suffix|] == Decimal(b.count);
        DecimalRoundTrip(a.count);
        DecimalRoundTrip(b.count);
      }
    } else if a.EspressosLeft? {
      assert Message(a)[0] == Decimal(a.count)[0] != 'A' == Message(b)[0];
    } else if b.EspressosLeft? {
      assert Message(b)[0] == Decimal(b.count)[0] != 'A' == Message(a)[0];
    } else if a != b {
      assert Message(a)[4] != Message(b)[4] || |Message(a)| != |Message(b)|;
    }
  }
}
