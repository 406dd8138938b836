/** The US address page: the customer name printed on the address and the full
    address text the copy button takes. */
module MyAddressPage {
  import opened Wrappers
  import opened Text
  import opened Records
  import Lists
  import DashboardHome

  const Loading := "Chargement..."

  /** `clientName` on this page: the address owner's name first, then the profile's,
      then a loading placeholder; the reverse of the dashboard home page's order. */
  function ClientName(address: Option<Address>, user: Option<User>): (r: string)
    ensures address.Some? && address.value.user.Some? && NameOf(address.value.user.value).Some? ==>
            r == NameOf(address.value.user.value).value
    ensures ((address.None? || address.value.user.None? || NameOf(address.value.user.value).None?) &&
             user.Some? && NameOf(user.value).Some?) ==> r == NameOf(user.value).value
    ensures ((address.None? || address.value.user.None? || NameOf(address.value.user.value).None?) &&
             (user.None? || NameOf(user.value).None?)) ==> r == Loading
  {
    if address.Some? && address.value.user.Some? && NameOf(address.value.user.value).Some? then
      NameOf(address.value.user.value).value
    else if user.Some? && NameOf(user.value).Some? then NameOf(user.value).value
    else Loading
  }

  /** When only one of the two sources names the customer, both pages print that
      name. */
  lemma PagesAgreeOnOneSource(address: Option<Address>, user: Option<User>)
    requires (address.None? || address.value.user.None? || NameOf(address.value.user.value).None?) ||
             (user.None? || NameOf(user.value).None?)
    requires ClientName(address, user) != Loading
    ensures DashboardHome.ClientName(user, address) == ClientName(address, user)
  {
  }

  /** When both sources name the customer, and differently, the two pages disagree:
      the dashboard shows the profile's name and this page the address owner's. */
  lemma PagesDisagreeOnTwoSources(user: User, owner: User, address: Address)
    requires address.user == Some(owner)
    requires NameOf(user).Some? && NameOf(owner).Some? && NameOf(user) != NameOf(owner)
    ensures DashboardHome.ClientName(Some(user), Some(address)) == NameOf(user).value
    ensures ClientName(Some(address), Some(user)) == NameOf(owner).value
    ensures DashboardHome.ClientName(Some(user), Some(address)) != ClientName(Some(address), Some(user))
  {
  }

  /** `fullAddress`: empty without an address; otherwise the code, the name, the
      street, "city, state zip" and "United States", one per line. */
  function FullAddress(address: Option<Address>, clientName: string): (r: string)
    ensures address.None? ==> r == ""
    ensures address.Some? ==> address.value.addressCode + "\n" <= r
  {
    match address
    case None => ""
    case Some(a) =>
      a.addressCode + "\n" + clientName + "\n" + a.usStreet + "\n" + CityLine(a) + "\n" + "United States"
  }

  /** "city, state zip". */
  function CityLine(a: Address): string {
    a.usCity + ", " + a.usState + " " + a.usZipcode
  }

  lemma CityLineHasNoBreak(a: Address)
    requires '\n' !in a.usCity && '\n' !in a.usState && '\n' !in a.usZipcode
    ensures '\n' !in CityLine(a)
  {
  }

  /** The copied address is its five lines joined with line breaks. */
  lemma FullAddressLines(a: Address, clientName: string)
    ensures FullAddress(Some(a), clientName) ==
      Join([a.addressCode, clientName, a.usStreet, CityLine(a), "United States"], "\n")
  {
    var lines := [a.addressCode, clientName, a.usStreet, CityLine(a), "United States"];
    assert lines[1..][1..][1..][1..] == ["United States"];
    assert Join(lines[1..][1..][1..], "\n") == CityLine(a) + "\n" + "United States";
    assert Join(lines[1..][1..], "\n") == a.usStreet + "\n" + (CityLine(a) + "\n" + "United States");
  }

  predicate IsNewline(c: char) { c == '\n' }

  lemma NoNewlines(s: string)
    requires '\n' !in s
    ensures Lists.Count(s, IsNewline) == 0
  {
    Lists.FilterNone(s, IsNewline);
  }

  /** A line without a break, followed by one, holds exactly one. */
  lemma OneBreak(x: string)
    requires '\n' !in x
    ensures Lists.Count(x + "\n", IsNewline) == 1
  {
    NoNewlines(x);
    CountConcat(x, "\n");
    assert Lists.Filter("\n", IsNewline) == "\n";
  }

  /** When no field holds a line break, the full address has exactly five lines. */
  lemma FullAddressHasFiveLines(a: Address, clientName: string)
    requires '\n' !in a.addressCode && '\n' !in clientName && '\n' !in a.usStreet
    requires '\n' !in a.usCity && '\n' !in a.usState && '\n' !in a.usZipcode
    ensures Lists.Count(FullAddress(Some(a), clientName), IsNewline) == 4
  {
    var cityLine := CityLine(a);
    CityLineHasNoBreak(a);
    var l1, l2, l3, l4 := a.addressCode + "\n", clientName + "\n", a.usStreet + "\n", cityLine + "\n";
    assert FullAddress(Some(a), clientName) == l1 + l2 + l3 + l4 + "United States";
    OneBreak(a.addressCode);
    OneBreak(clientName);
    OneBreak(a.usStreet);
    OneBreak(cityLine);
    NoNewlines("United States");
    CountFive(l1, l2, l3, l4, "United States");
  }

  lemma CountFive(l1: string, l2: string, l3: string, l4: string, last: string)
    ensures Lists.Count(l1 + l2 + l3 + l4 + last, IsNewline) ==
      Lists.Count(l1, IsNewline) + Lists.Count(l2, IsNewline) + Lists.Count(l3, IsNewline) +
      Lists.Count(l4, IsNewline) + Lists.Count(last, IsNewline)
  {
    CountConcat(l1, l2);
    CountConcat(l1 + l2, l3);
    CountConcat(l1 + l2 + l3, l4);
    CountConcat(l1 + l2 + l3 + l4, last);
  }

  lemma CountConcat(x: string, y: string)
    ensures Lists.Count(x + y, IsNewline) == Lists.Count(x, IsNewline) + Lists.Count(y, IsNewline)
  {
    Lists.FilterAppend(x, y, IsNewline);
  }
}
