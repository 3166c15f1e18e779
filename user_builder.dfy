/** Mapping between the user entity and its DTO; the three owned lists are
    mapped element by element through the matching builders. */
module UserBuilder {
  import opened Common
  import opened Dtos
  import opened Entities
  import ContractBuilder
  import ReviewBuilder
  import SolicitationBuilder

  function ContractDtos(cs: seq<Contract>): (ds: seq<ContractDto>)
    ensures |ds| == |cs|
    ensures forall i :: 0 <= i < |cs| ==> ds[i] == ContractBuilder.ToContractDto(cs[i])
  {
    seq(|cs|, i requires 0 <= i < |cs| => ContractBuilder.ToContractDto(cs[i]))
  }

  function ReviewDtos(rs: seq<Review>): (ds: seq<ReviewDto>)
    ensures |ds| == |rs|
    ensures forall i :: 0 <= i < |rs| ==> ds[i] == ReviewBuilder.ToReviewDto(rs[i])
  {
    seq(|rs|, i requires 0 <= i < |rs| => ReviewBuilder.ToReviewDto(rs[i]))
  }

  function SolicitationDtos(ss: seq<Solicitation>): (ds: seq<SolicitationDto>)
    ensures |ds| == |ss|
    ensures forall i :: 0 <= i < |ss| ==> ds[i] == SolicitationBuilder.ToSolicitationDto(ss[i])
  {
    seq(|ss|, i requires 0 <= i < |ss| => SolicitationBuilder.ToSolicitationDto(ss[i]))
  }

  function ContractEntities(ds: seq<ContractDto>): (cs: seq<Contract>)
    ensures |cs| == |ds|
    ensures forall i :: 0 <= i < |ds| ==> cs[i] == ContractBuilder.ToEntity(ds[i])
  {
    seq(|ds|, i requires 0 <= i < |ds| => ContractBuilder.ToEntity(ds[i]))
  }

  function ReviewEntities(ds: seq<ReviewDto>): (rs: seq<Review>)
    ensures |rs| == |ds|
    ensures forall i :: 0 <= i < |ds| ==> rs[i] == ReviewBuilder.ToEntity(ds[i])
  {
    seq(|ds|, i requires 0 <= i < |ds| => ReviewBuilder.ToEntity(ds[i]))
  }

  function SolicitationEntities(ds: seq<SolicitationDto>): (ss: seq<Solicitation>)
    ensures |ss| == |ds|
    ensures forall i :: 0 <= i < |ds| ==> ss[i] == SolicitationBuilder.ToEntity(ds[i])
  {
    seq(|ds|, i requires 0 <= i < |ds| => SolicitationBuilder.ToEntity(ds[i]))
  }

  /** Each DTO list turned into entities and back is the list itself. */
  lemma ListsRoundTrip(cs: seq<ContractDto>, rs: seq<ReviewDto>, ss: seq<SolicitationDto>)
    ensures ContractDtos(ContractEntities(cs)) == cs
    ensures ReviewDtos(ReviewEntities(rs)) == rs
    ensures SolicitationDtos(SolicitationEntities(ss)) == ss
  {
    assert ContractDtos(ContractEntities(cs)) == cs;
    assert ReviewDtos(ReviewEntities(rs)) == rs;
    assert SolicitationDtos(SolicitationEntities(ss)) == ss;
  }

  /** The entity-to-DTO list mappings keep order: mapping a concatenation concatenates
      the mapped parts. */
  lemma DtoListsKeepOrder(c1: seq<Contract>, c2: seq<Contract>, r1: seq<Review>, r2: seq<Review>,
                          s1: seq<Solicitation>, s2: seq<Solicitation>)
    ensures ContractDtos(c1 + c2) == ContractDtos(c1) + ContractDtos(c2)
    ensures ReviewDtos(r1 + r2) == ReviewDtos(r1) + ReviewDtos(r2)
    ensures SolicitationDtos(s1 + s2) == SolicitationDtos(s1) + SolicitationDtos(s2)
  {
  }

  /** The DTO-to-entity list mappings keep order in the same way. */
  lemma EntityListsKeepOrder(c1: seq<ContractDto>, c2: seq<ContractDto>, r1: seq<ReviewDto>, r2: seq<ReviewDto>,
                             s1: seq<SolicitationDto>, s2: seq<SolicitationDto>)
    ensures ContractEntities(c1 + c2) == ContractEntities(c1) + ContractEntities(c2)
    ensures ReviewEntities(r1 + r2) == ReviewEntities(r1) + ReviewEntities(r2)
    ensures SolicitationEntities(s1 + s2) == SolicitationEntities(s1) + SolicitationEntities(s2)
  {
  }

  function ToUserDto(u: User): UserDto {
    UserDto(
      u.id, u.firstName, u.lastName, u.username, u.password, u.email, u.phoneNumber, u.userRole,
      ContractDtos(u.contracts), ReviewDtos(u.reviews), SolicitationDtos(u.solicitations))
  }

  function ToEntity(d: UserDto): User {
    User(
      d.id, d.firstName, d.lastName, d.username, d.password, d.email, d.phoneNumber, d.userRole,
      ContractEntities(d.contracts), ReviewEntities(d.reviews), SolicitationEntities(d.solicitations))
  }

  /** toUserDTO copies the eight profile fields and maps the three lists
      element-wise, keeping their length and order. */
  lemma ToUserDtoFields(u: User)
    ensures var d := ToUserDto(u);
      && d.id == u.id && d.firstName == u.firstName && d.lastName == u.lastName
      && d.username == u.username && d.password == u.password && d.email == u.email
      && d.phoneNumber == u.phoneNumber && d.userRole == u.userRole
      && |d.contracts| == |u.contracts| && |d.reviews| == |u.reviews| && |d.solicitations| == |u.solicitations|
      && (forall i :: 0 <= i < |u.contracts| ==> d.contracts[i] == ContractBuilder.ToContractDto(u.contracts[i]))
      && (forall i :: 0 <= i < |u.reviews| ==> d.reviews[i] == ReviewBuilder.ToReviewDto(u.reviews[i]))
      && (forall i :: 0 <= i < |u.solicitations| ==> d.solicitations[i] == SolicitationBuilder.ToSolicitationDto(u.solicitations[i]))
  {
  }

  /** toEntity does the same in the other direction. */
  lemma ToEntityFields(d: UserDto)
    ensures var u := ToEntity(d);
      && u.id == d.id && u.firstName == d.firstName && u.lastName == d.lastName
      && u.username == d.username && u.password == d.password && u.email == d.email
      && u.phoneNumber == d.phoneNumber && u.userRole == d.userRole
      && |u.contracts| == |d.contracts| && |u.reviews| == |d.reviews| && |u.solicitations| == |d.solicitations|
      && (forall i :: 0 <= i < |d.contracts| ==> u.contracts[i] == ContractBuilder.ToEntity(d.contracts[i]))
      && (forall i :: 0 <= i < |d.reviews| ==> u.reviews[i] == ReviewBuilder.ToEntity(d.reviews[i]))
      && (forall i :: 0 <= i < |d.solicitations| ==> u.solicitations[i] == SolicitationBuilder.ToEntity(d.solicitations[i]))
  {
  }

  /** DTO -> entity -> DTO is the identity, nested lists included, because every
      contract, review and solicitation entry round-trips through its builder. */
  lemma DtoRoundTrip(d: UserDto)
    ensures ToUserDto(ToEntity(d)) == d
  {
    var u := ToEntity(d);
    assert ContractDtos(u.contracts) == d.contracts;
    assert ReviewDtos(u.reviews) == d.reviews;
    assert SolicitationDtos(u.solicitations) == d.solicitations;
  }

  /** Entity -> DTO -> entity keeps the profile fields and list lengths; each
      contract comes back with stub links carrying the original ids. */
  lemma EntityRoundTrip(u: User)
    ensures var u' := ToEntity(ToUserDto(u));
      && u'.id == u.id && u'.firstName == u.firstName && u'.lastName == u.lastName
      && u'.username == u.username && u'.password == u.password && u'.email == u.email
      && u'.phoneNumber == u.phoneNumber && u'.userRole == u.userRole
      && |u'.contracts| == |u.contracts| && |u'.reviews| == |u.reviews| && |u'.solicitations| == |u.solicitations|
      && (forall i :: 0 <= i < |u.contracts| ==>
            u'.contracts[i] == u.contracts[i].(user := UserStub(u.contracts[i].user.id),
                                               property := PropertyStub(u.contracts[i].property.id)))
  {
  }
}
