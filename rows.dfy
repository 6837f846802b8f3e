/** The parameter tuples of the two INSERT statements: a record flattened into the values of
    its table's columns, in the order of the statement's column list. */
module Rows {
  import opened PyOps
  import opened Identity

  type Row = seq<Scalar>

  /** The column list of the voters INSERT, which is also the declaration order of the table. */
  const VOTER_COLUMNS: seq<string> := [
    "voter_id", "voter_name", "date_of_birth", "gender", "nationality",
    "registration_number", "address_street", "address_city", "address_state", "address_country",
    "address_postcode", "email", "phone_number", "cell_number", "picture", "registered_age"
  ]

  const CANDIDATE_COLUMNS: seq<string> := [
    "candidate_id", "candidate_name", "party_affiliation", "biography", "campaign_platform", "photo_url"
  ]

  /** The value a voters column takes for a voter, by the column's name: `address_<part>`
      reads the nested address; every other column reads the record field of that name. */
  function VoterColumn(v: Voter, column: string): Option<Scalar> {
    match column
    case "voter_id" => Some(Str(v.voterId))
    case "voter_name" => Some(Str(v.voterName))
    case "date_of_birth" => Some(Str(v.dateOfBirth))
    case "gender" => Some(Str(v.gender))
    case "nationality" => Some(Str(v.nationality))
    case "registration_number" => Some(Str(v.registrationNumber))
    case "address_street" => Some(Str(v.address.street))
    case "address_city" => Some(Str(v.address.city))
    case "address_state" => Some(Str(v.address.state))
    case "address_country" => Some(Str(v.address.country))
    case "address_postcode" => Some(v.address.postcode)
    case "email" => Some(Str(v.email))
    case "phone_number" => Some(Str(v.phoneNumber))
    case "cell_number" => Some(Str(v.cellNumber))
    case "picture" => Some(Str(v.picture))
    case "registered_age" => Some(Int(v.registeredAge))
    case _ => None
  }

  function CandidateColumn(c: Candidate, column: string): Option<Scalar> {
    match column
    case "candidate_id" => Some(Str(c.candidateId))
    case "candidate_name" => Some(Str(c.candidateName))
    case "party_affiliation" => Some(Str(c.partyAffiliation))
    case "biography" => Some(Str(c.biography))
    case "campaign_platform" => Some(Str(c.campaignPlatform))
    case "photo_url" => Some(Str(c.photoUrl))
    case _ => None
  }

  /** Reads a voters row back into the record it was flattened from. */
  function RowToVoter(row: Row): Option<Voter> {
    if |row| != 16 then None
    else if !(row[0].Str? && row[1].Str? && row[2].Str? && row[3].Str? && row[4].Str?
              && row[5].Str? && row[6].Str? && row[7].Str? && row[8].Str? && row[9].Str?
              && row[11].Str? && row[12].Str? && row[13].Str? && row[14].Str? && row[15].Int?)
    then None
    else Some(Voter(
      row[0].s, row[1].s, row[2].s, row[3].s, row[4].s, row[5].s,
      Address(row[6].s, row[7].s, row[8].s, row[9].s, row[10]),
      row[11].s, row[12].s, row[13].s, row[14].s, row[15].i))
  }

  function RowToCandidate(row: Row): Option<Candidate> {
    if |row| != 6 then None
    else if !(row[0].Str? && row[1].Str? && row[2].Str? && row[3].Str? && row[4].Str? && row[5].Str?)
    then None
    else Some(Candidate(row[0].s, row[1].s, row[2].s, row[3].s, row[4].s, row[5].s))
  }

  /** The parameters of `insert_voters`: one value per column of VOTER_COLUMNS, in that order,
      with the nested address flattened; nothing is lost. */
  function VoterRow(v: Voter): (row: Row)
    ensures |row| == |VOTER_COLUMNS| == 16
    ensures RowToVoter(row) == Some(v)
  {
    [Str(v.voterId), Str(v.voterName), Str(v.dateOfBirth), Str(v.gender),
     Str(v.nationality), Str(v.registrationNumber), Str(v.address.street),
     Str(v.address.city), Str(v.address.state), Str(v.address.country),
     v.address.postcode, Str(v.email), Str(v.phoneNumber),
     Str(v.cellNumber), Str(v.picture), Int(v.registeredAge)]
  }

  /** The parameters of the candidates INSERT, in the order of CANDIDATE_COLUMNS. */
  function CandidateRow(c: Candidate): (row: Row)
    ensures |row| == |CANDIDATE_COLUMNS| == 6
    ensures RowToCandidate(row) == Some(c)
  {
    [Str(c.candidateId), Str(c.candidateName), Str(c.partyAffiliation),
     Str(c.biography), Str(c.campaignPlatform), Str(c.photoUrl)]
  }

  /** Value i of a voters row is the value of column i of the INSERT's column list. */
  lemma VoterRowColumnOrder(v: Voter)
    ensures forall i :: 0 <= i < |VoterRow(v)| ==> VoterColumn(v, VOTER_COLUMNS[i]) == Some(VoterRow(v)[i])
  {
  }

  lemma CandidateRowColumnOrder(c: Candidate)
    ensures forall i :: 0 <= i < |CandidateRow(c)| ==> CandidateColumn(c, CANDIDATE_COLUMNS[i]) == Some(CandidateRow(c)[i])
  {
  }

  /** Distinct voters give distinct rows. */
  lemma VoterRowInjective(v1: Voter, v2: Voter)
    requires VoterRow(v1) == VoterRow(v2)
    ensures v1 == v2
  {
    assert RowToVoter(VoterRow(v1)) == Some(v1);
  }

  /** A persisted voter row keeps the overridden nationality and country of a generated record. */
  lemma PersistedOverride(resp: Response)
    requires GenerateVoterData(resp).Ok?
    ensures VoterColumn(GenerateVoterData(resp).value, "nationality") == Some(Str(NATIONALITY))
    ensures VoterColumn(GenerateVoterData(resp).value, "address_country") == Some(Str(COUNTRY))
    ensures VoterRow(GenerateVoterData(resp).value)[4] == Str(NATIONALITY)
    ensures VoterRow(GenerateVoterData(resp).value)[9] == Str(COUNTRY)
  {
  }
}
