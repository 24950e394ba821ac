// The travel package entity, its transfer record, and the mapper between them:
// two null-preserving copies and an in-place update that leaves the id alone.
module PackageMapper {
  import opened Common

  /** A stored travel package. The price is in cents. */
  datatype TravelPackage = TravelPackage(packageId: Option<int>, title: Option<string>, description: Option<string>,
                                         duration: Option<string>, price: Option<int>,
                                         includedServices: Option<string>, agentId: Option<int>,
                                         image: Option<string>)

  /** The package as the endpoints send and receive it. */
  datatype TravelPackageDto = TravelPackageDto(packageId: Option<int>, title: Option<string>, description: Option<string>,
                                               duration: Option<string>, price: Option<int>,
                                               includedServices: Option<string>, agentId: Option<int>,
                                               image: Option<string>)

  /** `toDto`: null stays null. */
  function ToDto(e: Option<TravelPackage>): (r: Option<TravelPackageDto>)
    ensures r.None? <==> e.None?
  {
    match e
    case None => None
    case Some(p) =>
      Some(TravelPackageDto(p.packageId, p.title, p.description, p.duration, p.price, p.includedServices,
                            p.agentId, p.image))
  }

  /** `toEntity`: null stays null. */
  function ToEntity(d: Option<TravelPackageDto>): (r: Option<TravelPackage>)
    ensures r.None? <==> d.None?
  {
    match d
    case None => None
    case Some(p) =>
      Some(TravelPackage(p.packageId, p.title, p.description, p.duration, p.price, p.includedServices,
                         p.agentId, p.image))
  }

  /** The two copies are inverse, field for field, in both directions. */
  lemma MappingsInverse(e: Option<TravelPackage>, d: Option<TravelPackageDto>)
    ensures ToEntity(ToDto(e)) == e
    ensures ToDto(ToEntity(d)) == d
  {
  }

  /** What `updateEntityFromDto` leaves in an entity: every field of the record
      except the id, which stays the entity's. */
  function Updated(e: TravelPackage, d: TravelPackageDto): (r: TravelPackage)
    ensures r.packageId == e.packageId
    ensures ToDto(Some(r)) == Some(d.(packageId := e.packageId))
  {
    e.(title := d.title, description := d.description, duration := d.duration, price := d.price,
       includedServices := d.includedServices, agentId := d.agentId, image := d.image)
  }

  /** Updating twice from the same record is the same as updating once, and an
      update from the entity's own record changes nothing. */
  lemma UpdateIdempotent(e: TravelPackage, d: TravelPackageDto)
    ensures Updated(Updated(e, d), d) == Updated(e, d)
    ensures Updated(e, ToDto(Some(e)).value) == e
  {
  }

  /** A managed entity, whose fields the mapper sets one by one. */
  class PackageEntity {
    var packageId: Option<int>
    var title: Option<string>
    var description: Option<string>
    var duration: Option<string>
    var price: Option<int>
    var includedServices: Option<string>
    var agentId: Option<int>
    var image: Option<string>

    /** The entity loaded with a stored row. */
    constructor (p: TravelPackage)
      ensures Value() == p
    {
      packageId := p.packageId;
      title := p.title;
      description := p.description;
      duration := p.duration;
      price := p.price;
      includedServices := p.includedServices;
      agentId := p.agentId;
      image := p.image;
    }

    /** The entity's current fields. */
    function Value(): TravelPackage
      reads this
    {
      TravelPackage(packageId, title, description, duration, price, includedServices, agentId, image)
    }
  }

  /** `updateEntityFromDto`: with both present, the seven fields are set from the
      record and the id is never touched; with either one null, nothing changes. */
  method UpdateEntityFromDto(dto: Option<TravelPackageDto>, entity: PackageEntity?)
    modifies entity
    ensures entity != null && dto.Some? ==> entity.Value() == Updated(old(entity.Value()), dto.value)
    ensures entity != null && dto.None? ==> entity.Value() == old(entity.Value())
  {
    if dto.None? || entity == null {
      return;
    }
    var d := dto.value;
    entity.title := d.title;
    entity.description := d.description;
    entity.duration := d.duration;
    entity.price := d.price;
    entity.includedServices := d.includedServices;
    entity.agentId := d.agentId;
    entity.image := d.image;
  }
}
