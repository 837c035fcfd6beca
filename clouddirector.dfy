/** The Cloud Director client: one location read from a file, credentials
    read from another, and a check whether a vApp template exists in the
    location's catalogue. Reading and parsing the files, parsing the URL and
    authenticating are outcomes given to New; the organisations, catalogues
    and templates Cloud Director knows are sets fixed for each client. */
module CloudDirector {
  import opened Types

  datatype Credentials = Credentials(url: string, username: string, password: string, org: string, insecure: bool)

  datatype Location = Location(name: string, org: string, vdc: string, catalog: string)

  /** The outcome of reading a YAML file and unmarshalling it. */
  datatype Loaded<T> = ReadFailed | Malformed | Parsed(value: T)

  /** Credentials load iff the file is read and parses; they are not checked further. */
  function LoadCredentials(file: Loaded<Credentials>): (r: Result<Credentials>)
    ensures r.Ok? <==> file.Parsed?
    ensures r.Ok? ==> r.value == file.value
    ensures file.ReadFailed? ==> r == Err(CredentialsUnreadable)
    ensures file.Malformed? ==> r == Err(CredentialsMalformed)
  {
    match file
    case ReadFailed => Err(CredentialsUnreadable)
    case Malformed => Err(CredentialsMalformed)
    case Parsed(creds) => Ok(creds)
  }

  /** A location needs a name, a VDC and a catalogue, checked in that
      order; its organisation is not checked. */
  function LoadLocation(file: Loaded<Location>): (r: Result<Location>)
    ensures r.Ok? <==> file.Parsed? && file.value.name != "" && file.value.vdc != "" && file.value.catalog != ""
    ensures r.Ok? ==> r.value == file.value
    ensures file.ReadFailed? ==> r == Err(LocationsUnreadable)
    ensures file.Malformed? ==> r == Err(LocationsMalformed)
    ensures file.Parsed? && file.value.name == "" ==> r == Err(LocationNameRequired)
    ensures file.Parsed? && file.value.name != "" && file.value.vdc == "" ==> r == Err(LocationVDCRequired)
    ensures file.Parsed? && file.value.name != "" && file.value.vdc != "" && file.value.catalog == "" ==>
              r == Err(LocationCatalogRequired)
  {
    match file
    case ReadFailed => Err(LocationsUnreadable)
    case Malformed => Err(LocationsMalformed)
    case Parsed(location) =>
      if location.name == "" then Err(LocationNameRequired)
      else if location.vdc == "" then Err(LocationVDCRequired)
      else if location.catalog == "" then Err(LocationCatalogRequired)
      else Ok(location)
  }

  /** Any organisation passes location validation. */
  lemma LoadLocationIgnoresOrg(location: Location, org: string)
    ensures LoadLocation(Parsed(location.(org := org))).Ok? == LoadLocation(Parsed(location)).Ok?
  {
  }

  class Client {
    const url: string
    var location: Location
    /** The organisations that resolve. */
    const orgs: set<string>
    /** The (organisation, catalogue) pairs that resolve. */
    const catalogs: set<(string, string)>
    /** The (catalogue, template name) pairs present. */
    const templates: set<(string, string)>
    /** Template names whose lookup fails with an error other than not found. */
    const failingLookups: set<string>

    constructor (url: string, location: Location, orgs: set<string>, catalogs: set<(string, string)>,
                 templates: set<(string, string)>, failingLookups: set<string>)
      ensures this.url == url && this.location == location
      ensures this.orgs == orgs && this.catalogs == catalogs
      ensures this.templates == templates && this.failingLookups == failingLookups
    {
      this.url, this.location := url, location;
      this.orgs, this.catalogs := orgs, catalogs;
      this.templates, this.failingLookups := templates, failingLookups;
    }

    /** The single configured location, keyed by its name. */
    method GetLocations() returns (locations: map<string, Location>)
      ensures locations.Keys == {location.name} && locations[location.name] == location
    {
      locations := map[];
      locations := locations[location.name := location];
    }

    /** Whether the template `name` is in the location's catalogue. A
        template that is not found is (false, no error); failing to resolve
        the organisation or the catalogue, or any other lookup failure, is
        an error. `loc` is not used. */
    function Exists(name: string, loc: string): (r: (bool, Option<Failure>))
      reads this
      ensures r.1.Some? ==> !r.0
      ensures r.1.None? <==>
                location.org in orgs && (location.org, location.catalog) in catalogs && name !in failingLookups
      ensures r.0 <==> r.1.None? && (location.catalog, name) in templates
      ensures location.org !in orgs ==> r.1 == Some(OrgLookupFailed(location.org))
      ensures location.org in orgs && (location.org, location.catalog) !in catalogs ==>
                r.1 == Some(CatalogLookupFailed(location.catalog, location.org))
    {
      if location.org !in orgs then (false, Some(OrgLookupFailed(location.org)))
      else if (location.org, location.catalog) !in catalogs then
        (false, Some(CatalogLookupFailed(location.catalog, location.org)))
      else if name in failingLookups then (false, Some(TemplateLookupFailed(name)))
      else ((location.catalog, name) in templates, None)
    }

    lemma ExistsIgnoresLocation(name: string, loc1: string, loc2: string)
      ensures Exists(name, loc1) == Exists(name, loc2)
    {
    }

    /** Not implemented by the client: always success, and nothing changes. */
    method Delete(name: string, loc: string) returns (err: Option<Failure>)
      ensures err == None
    {
      err := None;
    }

    /** Not implemented by the client: always success, and nothing changes. */
    method Create(imageURL: string, imageName: string, loc: string) returns (err: Option<Failure>)
      ensures err == None
    {
      err := None;
    }
  }

  /** Connects to Cloud Director: credentials, URL, authentication and then
      the location, whose organisation is replaced by the credentials'. */
  method New(credentialsFile: Loaded<Credentials>, locationsFile: Loaded<Location>, parsesURL: string -> bool,
             authenticates: Credentials -> bool, orgs: set<string>, catalogs: set<(string, string)>,
             templates: set<(string, string)>, failingLookups: set<string>) returns (r: Result<Client>)
    ensures LoadCredentials(credentialsFile).Err? ==> r == Err(LoadCredentials(credentialsFile).error)
    ensures LoadCredentials(credentialsFile).Ok? ==>
              var creds := LoadCredentials(credentialsFile).value;
              if !parsesURL(creds.url) then r == Err(URLUnparsable)
              else if !authenticates(creds) then r == Err(AuthenticationFailed)
              else if LoadLocation(locationsFile).Err? then r == Err(LoadLocation(locationsFile).error)
              else
                && r.Ok? && fresh(r.value)
                && r.value.url == creds.url
                && r.value.location == LoadLocation(locationsFile).value.(org := creds.org)
                && r.value.orgs == orgs && r.value.catalogs == catalogs
                && r.value.templates == templates && r.value.failingLookups == failingLookups
  {
    var loadedCreds := LoadCredentials(credentialsFile);
    if loadedCreds.Err? {
      return Err(loadedCreds.error);
    }
    var creds := loadedCreds.value;
    if !parsesURL(creds.url) {
      return Err(URLUnparsable);
    }
    if !authenticates(creds) {
      return Err(AuthenticationFailed);
    }
    var loadedLocation := LoadLocation(locationsFile);
    if loadedLocation.Err? {
      return Err(loadedLocation.error);
    }
    var client := new Client(creds.url, loadedLocation.value, orgs, catalogs, templates, failingLookups);
    client.location := client.location.(org := creds.org);
    return Ok(client);
  }
}
