/** The mock dealership lookup tool (backend/tools/dealership.py). */
module Dealership {

  datatype Info = Info(name: string, address: string, phone: string, hours: string)

  /** The five dealerships the mock knows. */
  const Dealerships: map<string, Info> := map[
    "NYC001" := Info("SuperCar Manhattan", "123 Luxury Lane, Manhattan, NY 10001",
                     "+1 (212) 555-7890", "Mon-Fri: 9am-7pm, Sat: 10am-5pm, Sun: Closed"),
    "LA002" := Info("SuperCar Beverly Hills", "456 Prestige Drive, Beverly Hills, CA 90210",
                    "+1 (310) 555-1234", "Mon-Fri: 10am-8pm, Sat-Sun: 11am-6pm"),
    "CHI003" := Info("SuperCar Chicago", "789 Elite Street, Chicago, IL 60611",
                     "+1 (312) 555-4567", "Mon-Sat: 9am-6pm, Sun: 11am-4pm"),
    "HOU004" := Info("SuperCar Houston", "321 Premium Parkway, Houston, TX 77056",
                     "+1 (713) 555-8901", "Mon-Fri: 9am-7pm, Sat: 10am-6pm, Sun: Closed"),
    "MIA005" := Info("SuperCar Miami", "555 Luxury Avenue, Miami, FL 33139",
                     "+1 (305) 555-2345", "Mon-Sun: 10am-8pm")
  ]

  /** The placeholder the not-found text carries verbatim. */
  const Placeholder := "{dealership_id}"

  /**
   * The not-found text. The source writes it as a plain string, not an f-string, so it
   * carries the placeholder `{dealership_id}` literally instead of the requested id.
   */
  const NotFound := "Name: " + "Unknown Dealership" + ". Message: No dealership found with ID "
                    + Placeholder + ". Suggestion: Please visit our website to find the nearest dealership."

  /** The sentence built from one table entry. */
  function Describe(d: Info): string
  {
    "Name: " + d.name + ". Address: " + d.address + ". Phone: " + d.phone + ". Hours: " + d.hours + "."
  }

  /** The tool: exact membership on the five ids, the fixed text otherwise. */
  function GetDealershipAddress(dealershipId: string): (r: string)
    ensures dealershipId in Dealerships ==> r == Describe(Dealerships[dealershipId])
    ensures dealershipId !in Dealerships ==> r == NotFound
  {
    if dealershipId in Dealerships then Describe(Dealerships[dealershipId]) else NotFound
  }

  /** A description starts with "Name: " and the name. */
  lemma DescribeStartsWithName(d: Info)
    ensures var r := Describe(d);
            |r| > 6 + |d.name| && r[..6] == "Name: " && r[6..6 + |d.name|] == d.name
  {
    assert Describe(d) == ("Name: " + d.name) + (". Address: " + d.address + ". Phone: " + d.phone + ". Hours: " + d.hours + ".");
  }

  /** Every known id gets a description that starts with its dealership's name. */
  lemma KnownIdNamesDealership(dealershipId: string)
    requires dealershipId in Dealerships
    ensures var r := GetDealershipAddress(dealershipId);
            var n := Dealerships[dealershipId].name;
            |r| > 6 + |n| && r[..6] == "Name: " && r[6..6 + |n|] == n
  {
    DescribeStartsWithName(Dealerships[dealershipId]);
  }

  /** Two unknown ids get the very same text: the answer does not depend on the id. */
  lemma {:induction false} UnknownIdsIndistinguishable(a: string, b: string)
    requires a !in Dealerships && b !in Dealerships
    ensures GetDealershipAddress(a) == GetDealershipAddress(b)
  {
  }

  /** The not-found text contains the literal placeholder `{dealership_id}`. */
  lemma NotFoundKeepsPlaceholder()
    ensures NotFound[63..78] == Placeholder
  {
  }

  /** A known id never gets the not-found text. */
  lemma {:induction false} KnownIdIsFound(dealershipId: string)
    requires dealershipId in Dealerships
    ensures GetDealershipAddress(dealershipId) != NotFound
  {
    var d := Dealerships[dealershipId];
    KnownIdNamesDealership(dealershipId);
    assert NotFound[6] == 'U';
    assert d.name[0] == 'S';
  }
}
