/** The Service schema: a required provider, a required and trimmed name, a
    description of at most 500 characters, a required price within
    [0, 35000], and an image that defaults to the empty string. */
module ServiceModel {
  import opened Common

  datatype Service = Service(
    provider: Id,
    name: string,
    description: Option<string>,
    price: real,
    image: string)

  const MaxDescriptionLength := 500
  const MinPrice := 0.0
  const MaxPrice := 35000.0
  const DefaultImage := ""

  predicate PriceInRange(p: real) {
    MinPrice <= p <= MaxPrice
  }

  predicate DescriptionFits(d: Option<string>) {
    d.Some? ==> |d.value| <= MaxDescriptionLength
  }

  /** What the schema accepts in a stored service. */
  predicate ValidService(s: Service) {
    && s.name != "" && s.name == Trim(s.name)
    && DescriptionFits(s.description)
    && PriceInRange(s.price)
  }

  /** The value a `price` field casts to: None when it is absent, empty or
      does not cast to a number. */
  function PriceOf(price: Option<Field>, host: Host): (r: Option<real>)
    ensures price.None? ==> r.None?
    ensures price.Some? ==> r == CastNumber(price.value, host)
  {
    match price
    case None => None
    case Some(f) => CastNumber(f, host)
  }

  /** The document `Service.create({...})` stores, or None when a cast or a
      validator fails: `name` is trimmed and then must be non-empty, the
      description must fit, the price must be given, numeric and in range,
      and a missing image becomes the default. */
  function NewService(provider: Id, name: Option<string>, description: Option<string>,
                      price: Option<real>, image: Option<string>): (r: Option<Service>)
    ensures r.Some? <==> (name.Some? && Trim(name.value) != "" && DescriptionFits(description)
                          && price.Some? && PriceInRange(price.value))
    ensures r.Some? ==> (ValidService(r.value) && r.value.provider == provider
        && r.value.name == Trim(name.value) && r.value.description == description
        && r.value.price == price.value)
    ensures r.Some? ==> r.value.image == (if image.Some? then image.value else DefaultImage)
  {
    if name.Some? && Trim(name.value) != "" && DescriptionFits(description)
       && price.Some? && PriceInRange(price.value)
    then
      TrimIdempotent(name.value);
      Some(Service(provider, Trim(name.value), description, price.value,
                   if image.Some? then image.value else DefaultImage))
    else None
  }

  /** The document `findByIdAndUpdate` leaves with `runValidators` on: name,
      description, price and image overwritten, the provider kept; None when
      a validator rejects one of the new values. */
  function UpdatedService(s: Service, name: string, description: string, price: Option<real>,
                          image: string): (r: Option<Service>)
    ensures r.Some? <==> (Trim(name) != "" && DescriptionFits(Some(description))
                          && price.Some? && PriceInRange(price.value))
    ensures r.Some? ==> (ValidService(r.value) && r.value.provider == s.provider
        && r.value.name == Trim(name) && r.value.description == Some(description)
        && r.value.price == price.value && r.value.image == image)
  {
    if Trim(name) != "" && DescriptionFits(Some(description)) && price.Some? && PriceInRange(price.value) then
      TrimIdempotent(name);
      Some(Service(s.provider, Trim(name), Some(description), price.value, image))
    else None
  }

  /** A name of nothing but white space is refused, whichever space
      separator it is made of: the ideographic space trims to the empty name
      just as an ASCII space does. */
  lemma BlankNameRefused(provider: Id, description: Option<string>, price: Option<real>,
                         image: Option<string>)
    ensures NewService(provider, Some("\U{3000}"), description, price, image).None?
  {
    SingleSpaceTrims('\U{3000}');
  }
}
