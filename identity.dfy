/** The identity-source client: turns one response of the random-identity API into a voter or
    a candidate record, or into an error. The HTTP call itself is outside the model; its
    status code and parsed body are the input. */
module Identity {
  import opened PyOps

  const BASE_URL := "https://randomuser.me/api/?nat=in"
  const GENDER_PARAM := "&gender="
  const PARTIES: seq<string> := ["Bhartiya Janta Party", "Aam Aadmi Party", "Congress Party"]
  const CAMPAIGN_PLATFORMS: seq<string> := [
    "Focusing on digital India and economic growth.",
    "Fighting corruption and improving public services.",
    "Promoting inclusive development and social justice."
  ]
  const NATIONALITY := "Indian"
  const COUNTRY := "India"
  const BIOGRAPHY_PREFIX := "A dedicated public servant from "
  const BIOGRAPHY_SUFFIX := ", committed to India's progress."

  /** A JSON scalar whose type varies between API results (the postcode is a number for some
      nationalities and a string for others); also a SQL parameter. */
  datatype Scalar = Str(s: string) | Int(i: int)

  // The parts of one API result that the script reads, plus the upstream nationality and
  // country that it overrides.
  datatype Name = Name(first: string, last: string)
  datatype StreetInfo = StreetInfo(number: int, name: string)
  datatype Location = Location(street: StreetInfo, city: string, state: string, country: string, postcode: Scalar)
  datatype Login = Login(uuid: string, username: string)
  datatype User = User(
    gender: string, name: Name, location: Location, email: string, login: Login,
    dobDate: string, registeredAge: int, phone: string, cell: string, pictureLarge: string,
    nat: string)

  /** An HTTP response: its status code and the `results` list of its JSON body. */
  datatype Response = Response(status: int, results: seq<User>)

  datatype Address = Address(street: string, city: string, state: string, country: string, postcode: Scalar)
  datatype Voter = Voter(
    voterId: string, voterName: string, dateOfBirth: string, gender: string,
    nationality: string, registrationNumber: string, address: Address, email: string,
    phoneNumber: string, cellNumber: string, picture: string, registeredAge: int)
  datatype Candidate = Candidate(
    candidateId: string, candidateName: string, partyAffiliation: string,
    biography: string, campaignPlatform: string, photoUrl: string)

  datatype Error =
    | FetchFailed(status: int)    // the "Error fetching data" sentinel of a non-200 status
    | NoResults                   // `results[0]` of an empty list: IndexError
    | ZeroDivision                // `candidate_number % 0`
    | IndexOutOfRange(index: int) // `PARTIES[...]` outside the list: IndexError

  datatype Result<+T> = Ok(value: T) | Err(error: Error)

  /** Reads back the street number and street name of a street built by GenerateVoterData. */
  function ParseStreet(street: string): Option<(int, string)> {
    match SplitAtFirst(street, ' ')
    case None => None
    case Some(parts) =>
      match ParseInt(parts.0)
      case None => None
      case Some(n) => Some((n, parts.1))
  }

  /** `generate_voter_data`, given the response of its request to BASE_URL. */
  function GenerateVoterData(resp: Response): (r: Result<Voter>)
    ensures r.Ok? <==> resp.status == 200 && |resp.results| > 0
    ensures resp.status != 200 ==> r == Err(FetchFailed(resp.status))
    ensures resp.status == 200 && |resp.results| == 0 ==> r == Err(NoResults)
    // whatever the upstream nationality and country, the record is Indian
    ensures r.Ok? ==> r.value.nationality == NATIONALITY && r.value.address.country == COUNTRY
    ensures r.Ok? ==> var u := resp.results[0]; var v := r.value;
      && v.voterId == u.login.uuid
      && v.registrationNumber == u.login.username
      && v.voterName == u.name.first + " " + u.name.last
      && v.address.street == IntToString(u.location.street.number) + " " + u.location.street.name
      && v.dateOfBirth == u.dobDate && v.gender == u.gender
      && v.address.city == u.location.city && v.address.state == u.location.state
      && v.address.postcode == u.location.postcode
      && v.email == u.email && v.phoneNumber == u.phone && v.cellNumber == u.cell
      && v.picture == u.pictureLarge && v.registeredAge == u.registeredAge
  {
    if resp.status != 200 then Err(FetchFailed(resp.status))
    else if |resp.results| == 0 then Err(NoResults)
    else
      var u := resp.results[0];
      Ok(Voter(
        u.login.uuid, u.name.first + " " + u.name.last, u.dobDate, u.gender,
        NATIONALITY, u.login.username,
        Address(IntToString(u.location.street.number) + " " + u.location.street.name,
                u.location.city, u.location.state, COUNTRY, u.location.postcode),
        u.email, u.phone, u.cell, u.pictureLarge, u.registeredAge))
  }

  /** The concatenated fields lose nothing: the street number and street name can be read
      back from the street, and the first and last names from the voter name when the first
      name has no space. */
  lemma VoterFieldsRecoverable(resp: Response)
    requires GenerateVoterData(resp).Ok?
    ensures var u := resp.results[0]; var v := GenerateVoterData(resp).value;
      && ParseStreet(v.address.street) == Some((u.location.street.number, u.location.street.name))
      && (' ' !in u.name.first ==> SplitAtFirst(v.voterName, ' ') == Some((u.name.first, u.name.last)))
  {
    var u := resp.results[0];
    var number := IntToString(u.location.street.number);
    IntToStringRoundTrip(u.location.street.number);
    SplitJoin(number, u.location.street.name, ' ');
    if ' ' !in u.name.first {
      SplitJoin(u.name.first, u.name.last, ' ');
    }
  }

  /** The URL that `generate_candidate_data` requests: female candidates at odd indices,
      male ones at even indices. */
  function CandidateRequestUrl(candidateNumber: int): (url: string)
    ensures (url == BASE_URL + GENDER_PARAM + "female") <==> candidateNumber % 2 == 1
    ensures (url == BASE_URL + GENDER_PARAM + "male") <==> candidateNumber % 2 == 0
  {
    var female := BASE_URL + GENDER_PARAM + "female";
    var male := BASE_URL + GENDER_PARAM + "male";
    assert |female| != |male|;
    BASE_URL + GENDER_PARAM + (if FloorMod(candidateNumber, 2) == 1 then "female" else "male")
  }

  /** The index `candidate_number % total_parties` into the party and platform lists is valid. */
  predicate PartyIndexValid(candidateNumber: int, totalParties: int) {
    totalParties != 0 && -|PARTIES| <= FloorMod(candidateNumber, totalParties) < |PARTIES|
  }

  /** `generate_candidate_data(candidate_number, total_parties)`, given the response of its
      request to CandidateRequestUrl(candidate_number). */
  function GenerateCandidateData(candidateNumber: int, totalParties: int, resp: Response): (r: Result<Candidate>)
    ensures resp.status != 200 ==> r == Err(FetchFailed(resp.status))
    ensures resp.status == 200 && |resp.results| == 0 ==> r == Err(NoResults)
    ensures resp.status == 200 && |resp.results| > 0 && totalParties == 0 ==> r == Err(ZeroDivision)
    ensures resp.status == 200 && |resp.results| > 0 && totalParties != 0 && !PartyIndexValid(candidateNumber, totalParties) ==>
      r == Err(IndexOutOfRange(FloorMod(candidateNumber, totalParties)))
    ensures r.Ok? <==>
      resp.status == 200 && |resp.results| > 0 && PartyIndexValid(candidateNumber, totalParties)
    // party and platform are chosen by the same index
    ensures r.Ok? ==>
      && PyIndex(PARTIES, FloorMod(candidateNumber, totalParties)) == Some(r.value.partyAffiliation)
      && PyIndex(CAMPAIGN_PLATFORMS, FloorMod(candidateNumber, totalParties)) == Some(r.value.campaignPlatform)
    ensures r.Ok? ==> var u := resp.results[0]; var c := r.value;
      && c.candidateId == u.login.uuid
      && c.candidateName == u.name.first + " " + u.name.last
      && c.biography == BIOGRAPHY_PREFIX + u.location.state + BIOGRAPHY_SUFFIX
      && c.photoUrl == u.pictureLarge
    // as the script calls it, with three parties
    ensures totalParties == |PARTIES| && resp.status == 200 && |resp.results| > 0 ==>
      r.Ok? && r.value.partyAffiliation == PARTIES[candidateNumber % 3]
      && r.value.campaignPlatform == CAMPAIGN_PLATFORMS[candidateNumber % 3]
  {
    if resp.status != 200 then Err(FetchFailed(resp.status))
    else if |resp.results| == 0 then Err(NoResults)
    else if totalParties == 0 then Err(ZeroDivision)
    else
      var u := resp.results[0];
      var index := FloorMod(candidateNumber, totalParties);
      match PyIndex(PARTIES, index)
      case None => Err(IndexOutOfRange(index))
      case Some(party) =>
        match PyIndex(CAMPAIGN_PLATFORMS, index)
        case None => Err(IndexOutOfRange(index))
        case Some(platform) =>
          Ok(Candidate(
            u.login.uuid, u.name.first + " " + u.name.last, party,
            BIOGRAPHY_PREFIX + u.location.state + BIOGRAPHY_SUFFIX, platform, u.pictureLarge))
  }

  /** The party lookup succeeds for every candidate number exactly when `total_parties` lies
      in -4..-1 or 1..3 (Python's negative indices make the negative range work). */
  lemma PartyLookupTotal(totalParties: int)
    ensures (forall n :: PartyIndexValid(n, totalParties)) <==>
      (1 <= totalParties <= 3 || -4 <= totalParties <= -1)
  {
    if totalParties >= 4 {
      assert FloorMod(3, totalParties) == 3;
      assert !PartyIndexValid(3, totalParties);
    } else if totalParties <= -5 {
      assert FloorMod(-4, totalParties) == -4 by {
        assert -4 == FloorDiv(-4, totalParties) * totalParties + FloorMod(-4, totalParties);
        FloorDivZero(-4, totalParties);
      }
      assert !PartyIndexValid(-4, totalParties);
    } else if totalParties == 0 {
      assert !PartyIndexValid(0, totalParties);
    }
  }

  lemma FloorDivZero(a: int, b: int)
    requires b < a <= 0
    ensures FloorDiv(a, b) == 0
  {
    var c := -b;
    if a < 0 {
      assert a == -1 * c + (a + c);
      assert a % c == a + c && a / c == -1;
    }
  }
}
