/** The service-listing handlers: create (for providers and admins), the
    create route that is actually mounted (for any authenticated user),
    delete and update (for the owner or an admin), and the listing.  Every
    error is passed to the error middleware, which answers 500 because none
    of the errors carries a status. */
module ServiceController {
  import opened Common
  import opened UserModel
  import opened ServiceModel

  /** Every stored service satisfies the schema. */
  predicate ValidServices(ss: map<Id, Service>) {
    forall id :: id in ss ==> ValidService(ss[id])
  }

  /** A handler's status code and the collection it leaves. */
  datatype ServiceOutcome = ServiceOutcome(code: int, services: map<Id, Service>)

  /** The status the error middleware answers with when an error has no
      `status` of its own. */
  const ErrorStatus := 500

  /** The body fields the create and update handlers read. */
  datatype ServiceBody = ServiceBody(name: Option<string>, description: Option<string>,
                                     price: Option<Field>)

  /** Who may create: service providers and admins. */
  predicate MayCreate(u: User) {
    u.role == ServiceProvider || u.role == Admin
  }

  /** Who may change or remove a service: its provider or an admin. */
  predicate MayModify(u: User, s: Service) {
    s.provider == u.id || u.role == Admin
  }

  /** `req.file.buffer.toString('base64')`, or `''` without a file.  The
      upload middleware stores files on disk, so a file has no `buffer` and
      the call throws a TypeError: None. */
  function EncodedImage(file: Option<Upload>): (img: Option<string>)
    ensures img.Some? <==> file.None?
    ensures img.Some? ==> img.value == DefaultImage
  {
    if file.Some? then None else Some("")
  }

  /** Inserting a validated document under a fresh id; a taken id is a
      duplicate key error. */
  function Insert(ss: map<Id, Service>, id: Id, doc: Option<Service>): (o: ServiceOutcome)
    ensures o.code == 201 <==> doc.Some? && id !in ss
    ensures o.code != 201 ==> o == ServiceOutcome(ErrorStatus, ss)
    ensures o.code == 201 ==> o.services == ss[id := doc.value]
  {
    if doc.None? || id in ss then ServiceOutcome(ErrorStatus, ss)
    else ServiceOutcome(201, ss[id := doc.value])
  }

  /** `createService`: 500 with nothing created unless the caller is a
      service provider or an admin, and 500 with nothing created for any
      upload, whose missing buffer makes the encoding throw; otherwise the
      service `Service.create` validates is stored under `id` with the
      caller as provider and '' as image, and the code is 201. */
  function Create(ss: map<Id, Service>, id: Id, caller: User, b: ServiceBody, file: Option<Upload>,
                  host: Host): (o: ServiceOutcome)
    ensures !MayCreate(caller) ==> o == ServiceOutcome(ErrorStatus, ss)
    ensures file.Some? ==> o == ServiceOutcome(ErrorStatus, ss)
    ensures o.code == 201 || o.code == ErrorStatus
    ensures o.code != 201 ==> o.services == ss
    ensures o.code == 201 <==> (MayCreate(caller) && file.None? && id !in ss
                                && NewService(caller.id, b.name, b.description, PriceOf(b.price, host),
                                              Some(DefaultImage)).Some?)
    ensures o.code == 201 ==> (
        && id in o.services && o.services == ss[id := o.services[id]]
        && Some(o.services[id]) == NewService(caller.id, b.name, b.description, PriceOf(b.price, host),
                                              Some(DefaultImage))
        && o.services[id].provider == caller.id
        && o.services[id].image == DefaultImage
        && o.services[id].price == PriceOf(b.price, host).value)
    ensures ValidServices(ss) ==> ValidServices(o.services)
  {
    if !MayCreate(caller) then ServiceOutcome(ErrorStatus, ss)
    else
      match EncodedImage(file)
      case None => ServiceOutcome(ErrorStatus, ss)
      case Some(image) =>
        Insert(ss, id, NewService(caller.id, b.name, b.description, PriceOf(b.price, host), Some(image)))
  }

  /** The inline POST handler mounted on the service router: no role check,
      and the image is the upload's path rather than its content. */
  function CreateMounted(ss: map<Id, Service>, id: Id, caller: User, b: ServiceBody,
                         file: Option<Upload>, host: Host): (o: ServiceOutcome)
    ensures o.code == 201 <==> (id !in ss
                                && NewService(caller.id, b.name, b.description, PriceOf(b.price, host),
                                              Some(if file.Some? then file.value.path else "")).Some?)
    ensures o.code != 201 ==> o == ServiceOutcome(500, ss)
    ensures o.code == 201 ==> (
        && id in o.services && o.services == ss[id := o.services[id]]
        && Some(o.services[id]) == NewService(caller.id, b.name, b.description, PriceOf(b.price, host),
                                              Some(if file.Some? then file.value.path else ""))
        && o.services[id].provider == caller.id
        && o.services[id].image == (if file.Some? then file.value.path else ""))
    ensures ValidServices(ss) ==> ValidServices(o.services)
  {
    Insert(ss, id, NewService(caller.id, b.name, b.description, PriceOf(b.price, host),
                              Some(if file.Some? then file.value.path else "")))
  }

  /** The role rule of `createService` is not enforced where it matters:
      through the mounted route a user of any role, an individual say,
      creates a service exactly when a provider with the same body would. */
  lemma MountedRouteIgnoresRole(ss: map<Id, Service>, id: Id, caller: User, b: ServiceBody,
                                host: Host)
    ensures CreateMounted(ss, id, caller, b, None, host).code
            == Create(ss, id, caller.(role := ServiceProvider), b, None, host).code
    ensures !MayCreate(caller) ==> Create(ss, id, caller, b, None, host).code == ErrorStatus
  {
  }

  /** `deleteService`: 500 and the service left in place when the id is
      unknown or the caller is neither its provider nor an admin;
      otherwise exactly that service is removed and the code is 200. */
  function Delete(ss: map<Id, Service>, id: Id, caller: User): (o: ServiceOutcome)
    ensures o.code == 200 <==> (id in ss && MayModify(caller, ss[id]))
    ensures o.code != 200 ==> o == ServiceOutcome(ErrorStatus, ss)
    ensures o.code == 200 ==> (id !in o.services
                               && forall k :: k in o.services <==> k in ss && k != id)
    ensures forall k :: k in o.services ==> k in ss && o.services[k] == ss[k]
    ensures ValidServices(ss) ==> ValidServices(o.services)
  {
    if id !in ss || !MayModify(caller, ss[id]) then ServiceOutcome(ErrorStatus, ss)
    else ServiceOutcome(200, ss - {id})
  }

  /** The image an update stores: the old image when nothing is uploaded;
      for an upload the encoding of its missing buffer throws: None. */
  function ImageAfterUpdate(current: string, file: Option<Upload>): (img: Option<string>)
    ensures img.Some? <==> file.None?
    ensures img.Some? ==> img.value == current
  {
    if file.Some? then None else Some(current)
  }

  /** `updateService`: the same not-found and owner-or-admin rules as
      delete, then 500 with nothing changed for any upload; otherwise name,
      description and price are overwritten and validated, the provider and
      the image kept, and the code is 200; 500 with nothing changed when a
      validator refuses a value. */
  function Update(ss: map<Id, Service>, id: Id, caller: User, name: string, description: string,
                  price: Field, file: Option<Upload>, host: Host): (o: ServiceOutcome)
    ensures id !in ss || !MayModify(caller, ss[id]) ==> o == ServiceOutcome(ErrorStatus, ss)
    ensures file.Some? ==> o == ServiceOutcome(ErrorStatus, ss)
    ensures o.code == 200 || o.code == ErrorStatus
    ensures o.code != 200 ==> o.services == ss
    ensures o.code == 200 <==> (id in ss && MayModify(caller, ss[id]) && file.None?
                                && UpdatedService(ss[id], name, description, CastNumber(price, host),
                                                  ss[id].image).Some?)
    ensures o.code == 200 ==> (
        && id in o.services && o.services == ss[id := o.services[id]]
        && o.services[id].provider == ss[id].provider
        && o.services[id].name == Trim(name)
        && o.services[id].description == Some(description)
        && o.services[id].price == CastNumber(price, host).value
        && o.services[id].image == ss[id].image)
    ensures ValidServices(ss) ==> ValidServices(o.services)
  {
    if id !in ss || !MayModify(caller, ss[id]) then ServiceOutcome(ErrorStatus, ss)
    else
      var s := ss[id];
      match ImageAfterUpdate(s.image, file)
      case None => ServiceOutcome(ErrorStatus, ss)
      case Some(image) =>
        match UpdatedService(s, name, description, CastNumber(price, host), image)
        case None => ServiceOutcome(ErrorStatus, ss)
        case Some(t) => ServiceOutcome(200, ss[id := t])
  }

  /** Through the two controller handlers no upload ever succeeds: a file
      makes both create and update answer 500 and change nothing, whoever
      the caller is. */
  lemma UploadAlwaysFails(ss: map<Id, Service>, id: Id, caller: User, b: ServiceBody, name: string,
                          description: string, price: Field, f: Upload, host: Host)
    ensures Create(ss, id, caller, b, Some(f), host) == ServiceOutcome(ErrorStatus, ss)
    ensures Update(ss, id, caller, name, description, price, Some(f), host) == ServiceOutcome(ErrorStatus, ss)
  {
  }

  /** Only the provider and admins can touch a service: for anyone else
      both update and delete leave every service as it was. */
  lemma StrangersChangeNothing(ss: map<Id, Service>, id: Id, caller: User, name: string,
                               description: string, price: Field, file: Option<Upload>, host: Host)
    requires caller.role != Admin
    requires id in ss ==> ss[id].provider != caller.id
    ensures Delete(ss, id, caller).services == ss
    ensures Update(ss, id, caller, name, description, price, file, host).services == ss
  {
  }

  /** An admin may update any service, whoever its provider is, as long as
      nothing is uploaded; the update keeps that provider. */
  lemma AdminUpdatesAnyService(ss: map<Id, Service>, id: Id, admin: User, name: string,
                               description: string, price: Field, file: Option<Upload>, host: Host)
    requires admin.role == Admin && id in ss
    requires Trim(name) != "" && |description| <= MaxDescriptionLength
    requires CastNumber(price, host).Some? && PriceInRange(CastNumber(price, host).value)
    ensures Update(ss, id, admin, name, description, price, file, host).code
            == if file.None? then 200 else ErrorStatus
    ensures Update(ss, id, admin, name, description, price, file, host).services[id].provider
            == ss[id].provider
  {
  }

  // ------------------------------------------------------------------ store

  /** The Service collection. */
  class ServiceStore {
    var services: map<Id, Service>

    ghost predicate Valid()
      reads this
    {
      ValidServices(services)
    }

    constructor()
      ensures services == map[] && Valid()
    {
      services := map[];
    }

    /** Checks the role, encodes the upload, then `Service.create`. */
    method CreateService(id: Id, caller: User, b: ServiceBody, file: Option<Upload>, host: Host)
      returns (code: int)
      requires Valid()
      modifies this
      ensures Valid()
      ensures ServiceOutcome(code, services) == Create(old(services), id, caller, b, file, host)
    {
      if caller.role != ServiceProvider && caller.role != Admin {
        return ErrorStatus;
      }
      var imageBase64 := "";
      if file.Some? {
        // `req.file.buffer` is undefined under disk storage: a TypeError.
        return ErrorStatus;
      }
      var doc := NewService(caller.id, b.name, b.description, PriceOf(b.price, host), Some(imageBase64));
      if doc.None? || id in services {
        return ErrorStatus;
      }
      services := services[id := doc.value];
      code := 201;
    }

    /** Loads the service, checks owner or admin, removes it. */
    method DeleteService(id: Id, caller: User) returns (code: int)
      requires Valid()
      modifies this
      ensures Valid()
      ensures ServiceOutcome(code, services) == Delete(old(services), id, caller)
    {
      if id !in services {
        return ErrorStatus;
      }
      var service := services[id];
      if service.provider != caller.id && caller.role != Admin {
        return ErrorStatus;
      }
      services := services - {id};
      code := 200;
    }

    /** Loads the service, checks owner or admin, keeps or replaces the
        image, then `findByIdAndUpdate` with validators. */
    method UpdateService(id: Id, caller: User, name: string, description: string, price: Field,
                         file: Option<Upload>, host: Host) returns (code: int)
      requires Valid()
      modifies this
      ensures Valid()
      ensures ServiceOutcome(code, services)
              == Update(old(services), id, caller, name, description, price, file, host)
    {
      if id !in services {
        return ErrorStatus;
      }
      var service := services[id];
      if service.provider != caller.id && caller.role != Admin {
        return ErrorStatus;
      }
      var imageBase64 := service.image;
      if file.Some? {
        // `req.file.buffer` is undefined under disk storage: a TypeError.
        return ErrorStatus;
      }
      var updated := UpdatedService(service, name, description, CastNumber(price, host), imageBase64);
      if updated.None? {
        return ErrorStatus;
      }
      services := services[id := updated.value];
      code := 200;
    }
  }
}
