/**
 * The adapter descriptors (each adapter file's exports) and the ordered
 * registry of src/instrumentation/index.js, with the version ranges they
 * declare and the small part of semantic-version matching those ranges need.
 */
module Registry {
  import opened Wrappers

  /** An installed module's version, as read from its package.json. */
  datatype Version = Version(major: nat, minor: nat, patch: nat)

  /** The range forms the descriptors use: "N.x", "N.M" and "^N.M". */
  datatype Range = AnyMinor(major: nat) | AnyPatch(major: nat, minor: nat) | Caret(major: nat, minor: nat)

  /** `semver.satisfies(version, range)` for the three range forms. */
  predicate Satisfies(v: Version, r: Range) {
    match r
    case AnyMinor(m) => v.major == m
    case AnyPatch(m, n) => v.major == m && v.minor == n
    case Caret(m, n) => if m > 0 then v.major == m && v.minor >= n else v.major == 0 && v.minor == n
  }

  datatype Adapter =
    | Express | ExpressError | HttpClient | MongodbCore | Mysql | Mysql2 | Pg | Redis | Restify
    | HttpsClient | Koa | Ioredis | Mali | Sequelize | GrpcCaller

  /** An adapter's exports: its name, the module it targets and its optional version ranges. */
  datatype Descriptor = Descriptor(adapter: Adapter, name: string, moduleName: string, supportedVersions: Option<seq<Range>>)

  const EXPRESS := Descriptor(Express, "express", "express", Some([AnyMinor(4)]))
  const EXPRESS_ERROR := Descriptor(ExpressError, "expressError", "express", Some([AnyMinor(4)]))
  const HTTP_CLIENT := Descriptor(HttpClient, "httpClient", "http", None)
  const MONGODB_CORE := Descriptor(MongodbCore, "mongodbCore", "mongodb-core", Some([AnyMinor(1), AnyMinor(2), AnyMinor(3)]))
  const MYSQL := Descriptor(Mysql, "mysql", "mysql", Some([AnyMinor(2)]))
  const MYSQL2 := Descriptor(Mysql2, "mysql2", "mysql2", Some([Caret(1, 5)]))
  const PG := Descriptor(Pg, "pg", "pg", Some([AnyMinor(6)]))
  const REDIS := Descriptor(Redis, "redis", "redis", Some([AnyPatch(2, 8)]))
  const RESTIFY := Descriptor(Restify, "restify", "restify", Some([AnyMinor(5)]))
  const HTTPS_CLIENT := Descriptor(HttpsClient, "httpsClient", "https", None)
  const KOA := Descriptor(Koa, "koa", "koa", Some([AnyMinor(1), AnyMinor(2)]))
  const IOREDIS := Descriptor(Ioredis, "ioredis", "ioredis", None)
  const MALI := Descriptor(Mali, "mali", "mali", Some([AnyMinor(0)]))
  const SEQUELIZE := Descriptor(Sequelize, "sequelize", "sequelize", Some([AnyMinor(4), AnyMinor(5)]))
  const GRPC_CALLER := Descriptor(GrpcCaller, "@guanghe/grpc-caller", "@guanghe/grpc-caller", None)

  /** The registry the facade applies, in order; the other six adapters are not listed. */
  const REGISTRY: seq<Descriptor> := [EXPRESS, EXPRESS_ERROR, HTTP_CLIENT, MONGODB_CORE, MYSQL, MYSQL2, PG, REDIS, RESTIFY]

  /** The adapters that exist but are never applied automatically. */
  const UNREGISTERED: seq<Descriptor> := [HTTPS_CLIENT, KOA, IOREDIS, MALI, SEQUELIZE, GRPC_CALLER]
}
