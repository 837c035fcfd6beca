/** The vSphere client as the NodeImage controller calls it: its configured
    locations, and Exists, Import, Process and Delete per location. The
    vSphere SDK calls behind them are not modelled; instead the client is an
    abstract catalogue of (image name, location) templates, sets of locations
    at which each call fails, and a log of the calls made. */
module VsphereOracle {
  import opened Types

  datatype Call =
    | ExistsCall(name: string, location: string)
    | ImportCall(url: string, name: string, location: string)
    | ProcessCall(name: string, location: string)
    | DeleteCall(name: string, location: string)

  class VsphereClient {
    /** The keys of the client's Locations map. */
    const Locations: set<string>
    /** Locations at which each call fails. */
    const existsFails: set<string>
    const importFails: set<string>
    const processFails: set<string>
    const deleteFails: set<string>
    /** The templates present: (image name, location). */
    var catalog: set<(string, string)>
    /** Every call made, oldest first. */
    var calls: seq<Call>

    constructor (locations: set<string>, existsFails: set<string>, importFails: set<string>,
                 processFails: set<string>, deleteFails: set<string>, catalog: set<(string, string)>)
      ensures Locations == locations && this.catalog == catalog && calls == []
      ensures this.existsFails == existsFails && this.importFails == importFails
      ensures this.processFails == processFails && this.deleteFails == deleteFails
    {
      Locations := locations;
      this.existsFails, this.importFails := existsFails, importFails;
      this.processFails, this.deleteFails := processFails, deleteFails;
      this.catalog, calls := catalog, [];
    }

    /** Whether the template `name` is present at `loc`. */
    method Exists(name: string, loc: string) returns (found: bool, err: Option<Failure>)
      modifies this`calls
      ensures calls == old(calls) + [ExistsCall(name, loc)]
      ensures loc in existsFails ==> !found && err == Some(ProviderFailure(ExistsOp, loc))
      ensures loc !in existsFails ==> err == None && (found <==> (name, loc) in catalog)
    {
      calls := calls + [ExistsCall(name, loc)];
      if loc in existsFails {
        found, err := false, Some(ProviderFailure(ExistsOp, loc));
      } else {
        found, err := (name, loc) in catalog, None;
      }
    }

    /** Uploads the OVA at `url` as `name` at `loc`. */
    method Import(url: string, name: string, loc: string) returns (err: Option<Failure>)
      modifies this`calls
      ensures calls == old(calls) + [ImportCall(url, name, loc)]
      ensures err == (if loc in importFails then Some(ProviderFailure(ImportOp, loc)) else None)
    {
      calls := calls + [ImportCall(url, name, loc)];
      err := if loc in importFails then Some(ProviderFailure(ImportOp, loc)) else None;
    }

    /** Turns the imported object into a template; on success it is in the catalogue. */
    method Process(name: string, loc: string) returns (err: Option<Failure>)
      modifies this
      ensures calls == old(calls) + [ProcessCall(name, loc)]
      ensures loc in processFails ==> err == Some(ProviderFailure(ProcessOp, loc)) && catalog == old(catalog)
      ensures loc !in processFails ==> err == None && catalog == old(catalog) + {(name, loc)}
    {
      calls := calls + [ProcessCall(name, loc)];
      if loc in processFails {
        err := Some(ProviderFailure(ProcessOp, loc));
      } else {
        catalog := catalog + {(name, loc)};
        err := None;
      }
    }

    /** Removes the template `name` at `loc`; succeeds when it is already absent. */
    method Delete(name: string, loc: string) returns (err: Option<Failure>)
      modifies this
      ensures calls == old(calls) + [DeleteCall(name, loc)]
      ensures loc in deleteFails ==> err == Some(ProviderFailure(DeleteOp, loc)) && catalog == old(catalog)
      ensures loc !in deleteFails ==> err == None && catalog == old(catalog) - {(name, loc)}
    {
      calls := calls + [DeleteCall(name, loc)];
      if loc in deleteFails {
        err := Some(ProviderFailure(DeleteOp, loc));
      } else {
        catalog := catalog - {(name, loc)};
        err := None;
      }
    }
  }
}
