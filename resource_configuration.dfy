/** ExternalizedMockFlowConfiguration and XMLMockFlowConfiguration: where
    the flow under test (and, for XML flows, its parent flows) is read from.
    A location is turned into a flow definition resource by a resource
    factory that is created on first use and takes an optional base path. */
module Configuration {
  import opened Common

  /** A resource location as offered by a test, by its runtime class: a
      URL (with its external form), a File (with its absolute path), a
      String (a class-path location), or any other object (with its
      toString text). */
  datatype Location =
    | Url(externalForm: string)
    | File(absolutePath: string)
    | Text(path: string)
    | Other(text: string)

  /** The factory method a resource mapper calls, with its argument. */
  datatype FactoryCall =
    | CreateResource(path: string)
    | CreateFileResource(path: string)
    | CreateClassPathResource(path: string)

  /** The resource factory, as configured when it was created. */
  datatype Factory = Factory(basePath: Option<string>)

  /** A flow definition resource: `serial` tells apart resources created by
      different calls, `call` is how it was requested, `basePath` the
      factory's base path it was resolved against. */
  datatype Resource = Resource(serial: nat, call: FactoryCall, basePath: Option<string>)

  /** determineResourceMapper together with the mapper it returns: URL,
      then File, then String, then anything else. */
  function MapperCall(offer: Location): (c: FactoryCall)
    ensures c.CreateResource? <==> offer.Url? || offer.Other?
    ensures c.CreateFileResource? <==> offer.File?
    ensures c.CreateClassPathResource? <==> offer.Text?
    ensures offer.Url? ==> c.path == offer.externalForm
    ensures offer.File? ==> c.path == offer.absolutePath
    ensures offer.Text? ==> c.path == offer.path
    ensures offer.Other? ==> c.path == offer.text
  {
    match offer
    case Url(form) => CreateResource(form)
    case File(path) => CreateFileResource(path)
    case Text(path) => CreateClassPathResource(path)
    case Other(text) => CreateResource(text)
  }

  /** getResourceFactory on values: the existing factory, or a new one that
      takes the base path held at that moment. */
  function FactoryFrom(existing: Option<Factory>, basePath: Option<string>): (f: Factory)
    ensures existing.Some? ==> f == existing.value
    ensures existing.None? ==> f.basePath == basePath
  {
    if existing.Some? then existing.value else Factory(basePath)
  }

  class ExternalizedMockFlowConfiguration {
    const resourceLocation: Location
    var resource: Option<Resource>
    var resourceFactory: Option<Factory>
    var basePath: Option<string>
    /** How many resources this configuration has created. */
    var issued: nat

    /** A cached resource was created from the flow's own location by the
        factory that is still in place. */
    ghost predicate Valid()
      reads this
    {
      resource.Some? ==>
        && resourceFactory.Some?
        && resource.value.call == MapperCall(resourceLocation)
        && resource.value.basePath == resourceFactory.value.basePath
        && resource.value.serial < issued
    }

    constructor (location: Location)
      ensures Valid()
      ensures resourceLocation == location
      ensures resource == None && resourceFactory == None && basePath == None
      ensures issued == 0
    {
      resourceLocation := location;
      resource := None;
      resourceFactory := None;
      basePath := None;
      issued := 0;
    }

    /** getResourceFactory: created once, on first use; the base path is
        applied only then. */
    method GetResourceFactory() returns (f: Factory)
      requires Valid()
      modifies this
      ensures Valid()
      ensures f == FactoryFrom(old(resourceFactory), basePath)
      ensures resourceFactory == Some(f)
      ensures resource == old(resource) && basePath == old(basePath) && issued == old(issued)
    {
      if resourceFactory.None? {
        resourceFactory := Some(Factory(basePath));
      }
      f := resourceFactory.value;
    }

    /** createResource: dispatch on the offer's class and ask the factory;
        not cached, every call yields a new resource. */
    method CreateResourceFor(offer: Location) returns (r: Resource)
      requires Valid()
      modifies this
      ensures Valid()
      ensures resourceFactory == Some(FactoryFrom(old(resourceFactory), basePath))
      ensures r == Resource(old(issued), MapperCall(offer), resourceFactory.value.basePath)
      ensures issued == old(issued) + 1
      ensures resource == old(resource) && basePath == old(basePath)
    {
      var call := MapperCall(offer);
      var factory := GetResourceFactory();
      r := Resource(issued, call, factory.basePath);
      issued := issued + 1;
    }

    /** getResource: the flow's own location, resolved on the first call
        and cached afterwards. */
    method GetResource() returns (r: Resource)
      requires Valid()
      modifies this
      ensures Valid()
      ensures resource == Some(r)
      ensures r.call == MapperCall(resourceLocation)
      ensures resourceFactory.Some? && r.basePath == resourceFactory.value.basePath
      ensures old(resource).Some? ==> r == old(resource).value && resourceFactory == old(resourceFactory)
                                      && issued == old(issued)
      ensures old(resource).None? ==> r.serial == old(issued) && issued == old(issued) + 1
                                      && resourceFactory == Some(FactoryFrom(old(resourceFactory), basePath))
      ensures basePath == old(basePath)
    {
      if resource.None? {
        var created := CreateResourceFor(resourceLocation);
        resource := Some(created);
      }
      r := resource.value;
    }

    /** withBasePath: only stored; it reaches a factory created later. */
    method WithBasePath(path: Option<string>)
      requires Valid()
      modifies this
      ensures Valid()
      ensures basePath == path
      ensures resource == old(resource) && resourceFactory == old(resourceFactory) && issued == old(issued)
    {
      basePath := path;
    }
  }

  /** The snapshot `resources` was taken from the first |resources| offers,
      each mapped in order with the factory's base path. */
  predicate SnapshotOf(resources: seq<Resource>, offers: seq<Location>, factory: Factory)
  {
    && |resources| <= |offers|
    && forall i :: 0 <= i < |resources| ==>
         resources[i].call == MapperCall(offers[i]) && resources[i].basePath == factory.basePath
  }

  class XmlMockFlowConfiguration {
    /** The inherited configuration of the main flow. */
    const base: ExternalizedMockFlowConfiguration
    var offers: seq<Location>
    var resources: Option<seq<Resource>>

    ghost predicate Valid()
      reads this, base
    {
      && base.Valid()
      && (resources.Some? && resources.value != [] ==>
            base.resourceFactory.Some? && SnapshotOf(resources.value, offers, base.resourceFactory.value))
      && (resources.Some? ==> |resources.value| <= |offers|)
    }

    constructor (location: Location)
      ensures Valid() && fresh(base)
      ensures base.resourceLocation == location && base.resource == None
      ensures base.resourceFactory == None && base.basePath == None
      ensures offers == [] && resources == None
    {
      base := new ExternalizedMockFlowConfiguration(location);
      offers := [];
      resources := None;
    }

    /** addParentFlow: append the offer. */
    method AddParentFlow(offer: Location)
      requires Valid()
      modifies this
      ensures Valid()
      ensures offers == old(offers) + [offer]
      ensures resources == old(resources)
    {
      offers := offers + [offer];
    }

    /** getFlowResources: on the first call every offer, in order, is turned
        into a resource and the list is kept; later calls return that same
        list, whatever offers arrived since. With no offers the factory is
        not touched. */
    method GetFlowResources() returns (rs: seq<Resource>)
      requires Valid()
      modifies this, base
      ensures Valid()
      ensures resources == Some(rs)
      ensures old(resources).Some? ==> rs == old(resources).value && base.issued == old(base.issued)
                                       && base.resourceFactory == old(base.resourceFactory)
      ensures old(resources).None? ==> |rs| == |offers|
      ensures old(resources).None? ==> forall i :: 0 <= i < |rs| ==>
                rs[i].call == MapperCall(offers[i]) && rs[i].serial == old(base.issued) + i
      ensures old(resources).None? && offers != [] ==>
                base.resourceFactory == Some(FactoryFrom(old(base.resourceFactory), base.basePath))
      ensures offers == [] ==> base.resourceFactory == old(base.resourceFactory)
      ensures offers == old(offers)
      ensures base.resource == old(base.resource) && base.basePath == old(base.basePath)
    {
      if resources.None? {
        var mapped: seq<Resource> := [];
        for i := 0 to |offers|
          invariant base.Valid() && offers == old(offers) && resources == None
          invariant |mapped| == i
          invariant i > 0 ==> base.resourceFactory == Some(FactoryFrom(old(base.resourceFactory), base.basePath))
          invariant i == 0 ==> base.resourceFactory == old(base.resourceFactory)
          invariant base.issued == old(base.issued) + i
          invariant base.resource == old(base.resource) && base.basePath == old(base.basePath)
          invariant mapped != [] ==> base.resourceFactory.Some? && SnapshotOf(mapped, offers, base.resourceFactory.value)
          invariant forall j :: 0 <= j < i ==> mapped[j].serial == old(base.issued) + j
        {
          var r := base.CreateResourceFor(offers[i]);
          mapped := mapped + [r];
        }
        resources := Some(mapped);
      }
      rs := resources.value;
    }

    /** getResource, inherited. */
    method GetResource() returns (r: Resource)
      requires Valid()
      modifies base
      ensures Valid()
      ensures base.resource == Some(r) && r.call == MapperCall(base.resourceLocation)
      ensures old(base.resource).Some? ==> r == old(base.resource).value
    {
      r := base.GetResource();
    }

    /** withBasePath, inherited. */
    method WithBasePath(path: Option<string>)
      requires Valid()
      modifies base
      ensures Valid()
      ensures base.basePath == path && base.resourceFactory == old(base.resourceFactory)
    {
      base.WithBasePath(path);
    }
  }

  /** The flow's resource is resolved once: two calls give one resource. */
  method ResourceIsResolvedOnce(location: Location) returns (first: Resource, second: Resource)
    ensures first == second && first.call == MapperCall(location)
  {
    var configuration := new ExternalizedMockFlowConfiguration(location);
    first := configuration.GetResource();
    second := configuration.GetResource();
  }

  /** createResource is not cached: the same offer twice gives two resources. */
  method CreateResourceIsNotCached(offer: Location) returns (first: Resource, second: Resource)
    ensures first != second && first.call == second.call
  {
    var configuration := new ExternalizedMockFlowConfiguration(offer);
    first := configuration.CreateResourceFor(offer);
    second := configuration.CreateResourceFor(offer);
  }

  /** A base path set before the factory exists is applied; one set after
      it exists is ignored by every later resolution. */
  method BasePathIsCapturedOnce(location: Location, offer: Location, early: Option<string>, late: Option<string>)
    returns (first: Resource, second: Resource)
    ensures first.basePath == early && second.basePath == early
  {
    var configuration := new ExternalizedMockFlowConfiguration(location);
    configuration.WithBasePath(early);
    first := configuration.GetResource();
    configuration.WithBasePath(late);
    second := configuration.CreateResourceFor(offer);
  }

  /** Parent flows added after the first getFlowResources never show up. */
  method SnapshotIgnoresLaterParents(location: Location, parent: Location, latecomer: Location)
    returns (first: seq<Resource>, second: seq<Resource>)
    ensures first == second && |first| == 1 && first[0].call == MapperCall(parent)
  {
    var configuration := new XmlMockFlowConfiguration(location);
    configuration.AddParentFlow(parent);
    first := configuration.GetFlowResources();
    configuration.AddParentFlow(latecomer);
    second := configuration.GetFlowResources();
  }

  /** Without parents the flow resources are empty. */
  method NoParentsNoResources(location: Location) returns (rs: seq<Resource>)
    ensures rs == []
  {
    var configuration := new XmlMockFlowConfiguration(location);
    rs := configuration.GetFlowResources();
  }
}
