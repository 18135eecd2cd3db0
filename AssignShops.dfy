/** The "Assign Shops and Sectors by Salesman" screen: a salesman picked
    from a list, the shops and sectors chosen for them, and the submit
    button that reports the assignment. */
module AssignShops {
  import Text

  /** How `handleSubmit` ends: the alert it raises. */
  datatype SubmitResult = Rejected(alert: string) | Assigned(alert: string)

  const NoSalesmanAlert := "Please select a salesman."

  /** `Assigned ${shops} shop(s) and ${sectors} sector(s) to ${name}`:
      each count written in decimal at its own place between the fixed
      words, and the name at the end. */
  function AssignedMessage(shops: nat, sectors: nat, name: string): (msg: string)
    ensures var a := Text.NatToString(shops);
            9 + |a| + 13 <= |msg| &&
            msg[..9] == "Assigned " && msg[9..9 + |a|] == a && msg[9 + |a|..9 + |a| + 13] == " shop(s) and "
    ensures var k := 9 + |Text.NatToString(shops)| + 13;
            var b := Text.NatToString(sectors);
            k + |b| + 14 <= |msg| &&
            msg[k..k + |b|] == b && msg[k + |b|..k + |b| + 14] == " sector(s) to "
    ensures |msg| == 9 + |Text.NatToString(shops)| + 13 + |Text.NatToString(sectors)| + 14 + |name|
    ensures msg[|msg| - |name|..] == name
  {
    var a := Text.NatToString(shops);
    var b := Text.NatToString(sectors);
    var first := "Assigned " + a + " shop(s) and ";
    var second := b + " sector(s) to ";
    Pieces("Assigned ", a, " shop(s) and ");
    Pieces(b, " sector(s) to ", name);
    Pieces(first, second, name);
    var msg := first + second + name;
    assert msg[..|first|] == first;
    assert msg[|first|..|first| + |second|] == second;
    msg
  }

  /** The pieces of a three-part concatenation are where they were put. */
  lemma Pieces(x: string, y: string, z: string)
    ensures (x + y + z)[..|x|] == x
    ensures (x + y + z)[|x|..|x| + |y|] == y
    ensures (x + y + z)[|x| + |y|..] == z
  {
  }

  /** `s` is a run of decimal digits whose value is `n`. */
  predicate Spells(s: string, n: nat) {
    (forall i :: 0 <= i < |s| ==> Text.IsDigit(s[i])) && Text.DigitsValue(s) == n
  }

  /** Both counts can be read back from the alert: the digits at each
      count's place spell the count. */
  lemma CountsReadBack(shops: nat, sectors: nat, name: string)
    ensures var msg := AssignedMessage(shops, sectors, name);
            var a := |Text.NatToString(shops)|;
            Spells(msg[9..9 + a], shops)
    ensures var msg := AssignedMessage(shops, sectors, name);
            var k := 9 + |Text.NatToString(shops)| + 13;
            Spells(msg[k..k + |Text.NatToString(sectors)|], sectors)
  {
    Text.NatToStringRoundTrip(shops);
    Text.NatToStringRoundTrip(sectors);
  }

  class AssignBySalesman {
    const salesmen: seq<string>
    const shops: seq<string>
    const sectors: seq<string>
    var selectedSalesman: string
    var assignedShops: seq<string>
    var assignedSectors: seq<string>

    /** No salesman selected and nothing assigned. */
    constructor ()
      ensures selectedSalesman == "" && assignedShops == [] && assignedSectors == []
      ensures salesmen == ["John Doe", "Jane Smith", "Emily Davis", "Michael Brown"]
      ensures shops == ["Shop 1", "Shop 2", "Shop 3", "Shop 4", "Shop 5"]
      ensures sectors == ["Sector A", "Sector B", "Sector C", "Sector D"]
    {
      salesmen := ["John Doe", "Jane Smith", "Emily Davis", "Michael Brown"];
      shops := ["Shop 1", "Shop 2", "Shop 3", "Shop 4", "Shop 5"];
      sectors := ["Sector A", "Sector B", "Sector C", "Sector D"];
      selectedSalesman := "";
      assignedShops := [];
      assignedSectors := [];
    }

    /** `handleSalesmanChange`: a new selection clears both assignments. */
    method HandleSalesmanChange(value: string)
      modifies this
      ensures selectedSalesman == value && assignedShops == [] && assignedSectors == []
    {
      selectedSalesman := value;
      assignedShops := [];
      assignedSectors := [];
    }

    /** `handleAssignChange(e, type)`: `'shops'` replaces the shops only,
        `'sectors'` the sectors only, and any other type changes nothing. */
    method HandleAssignChange(kind: string, value: seq<string>)
      modifies this
      ensures selectedSalesman == old(selectedSalesman)
      ensures assignedShops == if kind == "shops" then value else old(assignedShops)
      ensures assignedSectors == if kind == "sectors" then value else old(assignedSectors)
    {
      if kind == "shops" {
        assignedShops := value;
      }
      if kind == "sectors" {
        assignedSectors := value;
      }
    }

    /** `handleSubmit`: rejected while no salesman is selected; otherwise the
        alert reports both counts and the salesman. It changes no state. */
    method HandleSubmit() returns (result: SubmitResult)
      ensures result.Rejected? <==> selectedSalesman == ""
      ensures result.Rejected? ==> result.alert == NoSalesmanAlert
      ensures result.Assigned? ==>
                result.alert == AssignedMessage(|assignedShops|, |assignedSectors|, selectedSalesman)
    {
      if selectedSalesman == "" {
        return Rejected(NoSalesmanAlert);
      }
      result := Assigned(AssignedMessage(|assignedShops|, |assignedSectors|, selectedSalesman));
    }
  }
}
