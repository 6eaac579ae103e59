/** The data the compose template is rendered from: service records, the
    ordered list of them, and the structural facts (order by name, lookup by
    name, dependencies) that hold of the list whatever the records contain.
 */
module Compose {

  datatype Option<T> = None | Some(value: T)

  /** The six services the builder knows. */
  datatype Name = Redis | Db | Php | Nginx | Mail | PhpMyAdmin {
    /** The `service_name` written into the compose file. */
    function Text(): string {
      match this
      case Redis => "redis"
      case Db => "db"
      case Php => "php"
      case Nginx => "nginx"
      case Mail => "mail"
      case PhpMyAdmin => "phpmyadmin"
    }

    /** The rank of the service in the fixed file order (redis, when present, comes first). */
    function Rank(): nat {
      match this
      case Redis => 0
      case Db => 1
      case Php => 2
      case Nginx => 3
      case Mail => 4
      case PhpMyAdmin => 5
    }
  }

  /** One service block of the compose file. A field the source leaves unset
      on a service is `None` (or the empty list). `serviceName` and
      `dependsOn` hold a `Name`, which the file spells as `Name.Text()`. */
  datatype Service = Service(
    serviceName: Name,
    image: string,
    restart: Option<string>,
    dependsOn: Option<Name>,
    volumes: seq<string>,
    environment: seq<string>,
    command: Option<string>,
    networks: string)

  /** What the template is rendered from: the services in order, and the
      flag that makes the template emit the shared network. */
  datatype Binding = Binding(services: seq<Service>, network: bool)

  /** Each service comes after every service that ranks before it. */
  ghost predicate InFileOrder(s: seq<Service>) {
    forall i, j :: 0 <= i < j < |s| ==> s[i].serviceName.Rank() < s[j].serviceName.Rank()
  }

  /** If each service ranks below the next, the ranks increase along the whole list. */
  lemma {:induction false} RankedInOrder(s: seq<Service>)
    requires forall i :: 0 <= i < |s| - 1 ==> s[i].serviceName.Rank() < s[i + 1].serviceName.Rank()
    ensures InFileOrder(s)
    ensures DistinctNames(s)
  {
    if |s| > 1 {
      RankedInOrder(s[1..]);
      forall i, j | 0 <= i < j < |s|
        ensures s[i].serviceName.Rank() < s[j].serviceName.Rank()
      {
        if i > 0 {
          assert s[i] == s[1..][i - 1] && s[j] == s[1..][j - 1];
        } else if j > 1 {
          assert s[1] == s[1..][0] && s[j] == s[1..][j - 1];
        }
      }
    }
  }

  /** Distinct services are written under distinct names. */
  lemma NameTextsDistinct(m: Name, n: Name)
    requires m != n
    ensures m.Text() != n.Text()
  {
  }

  /** The service names of a list, in order. */
  function Names(services: seq<Service>): (names: seq<Name>)
    ensures |names| == |services|
    ensures forall i :: 0 <= i < |services| ==> names[i] == services[i].serviceName
  {
    if services == [] then [] else [services[0].serviceName] + Names(services[1..])
  }

  /** The first service called `name`, if any. */
  function Lookup(services: seq<Service>, name: Name): (r: Option<Service>)
    ensures r.Some? <==> name in Names(services)
    ensures r.Some? ==> r.value in services && r.value.serviceName == name
  {
    if services == [] then None
    else if services[0].serviceName == name then Some(services[0])
    else Lookup(services[1..], name)
  }

  /** Every dependency names a service that comes earlier in the list. */
  ghost predicate DependenciesPointBackwards(services: seq<Service>) {
    forall i :: 0 <= i < |services| && services[i].dependsOn.Some? ==>
      exists j :: 0 <= j < i && services[j].serviceName == services[i].dependsOn.value
  }

  /** No two services share a name. */
  ghost predicate DistinctNames(services: seq<Service>) {
    forall i, j :: 0 <= i < j < |services| ==> services[i].serviceName != services[j].serviceName
  }

  /** In a list whose names are distinct, looking a service up by its name finds it. */
  lemma {:induction false} LookupFinds(services: seq<Service>, i: nat)
    requires i < |services|
    requires DistinctNames(services)
    ensures Lookup(services, services[i].serviceName) == Some(services[i])
  {
    if i > 0 {
      assert services[0].serviceName != services[i].serviceName;
      LookupFinds(services[1..], i - 1);
    }
  }

  /** The service list: `redis` first when the cache is wanted, then the
      five services every site has, in the order they are appended. */
  function Assemble(withRedis: bool, redis: Service, db: Service, php: Service,
                    nginx: Service, mail: Service, phpmyadmin: Service): (s: seq<Service>)
    ensures |s| == if withRedis then 6 else 5
  {
    (if withRedis then [redis] else []) + [db, php, nginx, mail, phpmyadmin]
  }

  /** The records play the roles their names say: each is named after its
      service, php depends on db, nginx on php, and nothing else depends on
      anything. */
  ghost predicate Roles(redis: Service, db: Service, php: Service,
                        nginx: Service, mail: Service, phpmyadmin: Service) {
    && redis.serviceName == Redis && redis.dependsOn == None
    && db.serviceName == Db && db.dependsOn == None
    && php.serviceName == Php && php.dependsOn == Some(Db)
    && nginx.serviceName == Nginx && nginx.dependsOn == Some(Php)
    && mail.serviceName == Mail && mail.dependsOn == None
    && phpmyadmin.serviceName == PhpMyAdmin && phpmyadmin.dependsOn == None
  }

  /** By name, the list is `[redis?] ++ [db, php, nginx, mail, phpmyadmin]`. */
  lemma AssembleNames(withRedis: bool, redis: Service, db: Service, php: Service,
                      nginx: Service, mail: Service, phpmyadmin: Service)
    requires Roles(redis, db, php, nginx, mail, phpmyadmin)
    ensures Names(Assemble(withRedis, redis, db, php, nginx, mail, phpmyadmin)) ==
      (if withRedis then [Redis] else []) + [Db, Php, Nginx, Mail, PhpMyAdmin]
  {
    var s := Assemble(withRedis, redis, db, php, nginx, mail, phpmyadmin);
    var expected := (if withRedis then [Redis] else []) + [Db, Php, Nginx, Mail, PhpMyAdmin];
    forall i | 0 <= i < |s|
      ensures Names(s)[i] == expected[i]
    {
    }
  }

  /** The list follows the order of the compose file, so no name occurs twice. */
  lemma AssembleInFileOrder(withRedis: bool, redis: Service, db: Service, php: Service,
                         nginx: Service, mail: Service, phpmyadmin: Service)
    requires Roles(redis, db, php, nginx, mail, phpmyadmin)
    ensures InFileOrder(Assemble(withRedis, redis, db, php, nginx, mail, phpmyadmin))
    ensures DistinctNames(Assemble(withRedis, redis, db, php, nginx, mail, phpmyadmin))
  {
    var s := Assemble(withRedis, redis, db, php, nginx, mail, phpmyadmin);
    assert forall i :: 0 <= i < |s| - 1 ==> s[i].serviceName.Rank() < s[i + 1].serviceName.Rank();
    RankedInOrder(s);
  }

  /** Looking a service up by name finds its record; redis is found exactly
      when the cache is wanted. */
  lemma AssembleLookup(withRedis: bool, redis: Service, db: Service, php: Service,
                       nginx: Service, mail: Service, phpmyadmin: Service)
    requires Roles(redis, db, php, nginx, mail, phpmyadmin)
    ensures var s := Assemble(withRedis, redis, db, php, nginx, mail, phpmyadmin);
      && Lookup(s, Redis) == (if withRedis then Some(redis) else None)
      && Lookup(s, Db) == Some(db)
      && Lookup(s, Php) == Some(php)
      && Lookup(s, Nginx) == Some(nginx)
      && Lookup(s, Mail) == Some(mail)
      && Lookup(s, PhpMyAdmin) == Some(phpmyadmin)
  {
    var s := Assemble(withRedis, redis, db, php, nginx, mail, phpmyadmin);
    var o := if withRedis then 1 else 0;
    AssembleNames(withRedis, redis, db, php, nginx, mail, phpmyadmin);
    AssembleInFileOrder(withRedis, redis, db, php, nginx, mail, phpmyadmin);
    if withRedis {
      LookupFinds(s, 0);
    } else {
      assert Redis !in Names(s);
    }
    LookupFinds(s, o);
    LookupFinds(s, o + 1);
    LookupFinds(s, o + 2);
    LookupFinds(s, o + 3);
    LookupFinds(s, o + 4);
  }

  /** Every dependency in the list names a service appended before it. */
  lemma AssembleDependencies(withRedis: bool, redis: Service, db: Service, php: Service,
                             nginx: Service, mail: Service, phpmyadmin: Service)
    requires Roles(redis, db, php, nginx, mail, phpmyadmin)
    ensures DependenciesPointBackwards(Assemble(withRedis, redis, db, php, nginx, mail, phpmyadmin))
  {
    var s := Assemble(withRedis, redis, db, php, nginx, mail, phpmyadmin);
    var o := if withRedis then 1 else 0;
    assert s[o] == db && s[o + 1] == php && s[o + 2] == nginx && s[o + 3] == mail && s[o + 4] == phpmyadmin;
    forall i | 0 <= i < |s| && s[i].dependsOn.Some?
      ensures exists j :: 0 <= j < i && s[j].serviceName == s[i].dependsOn.value
    {
      if i == o + 1 {
        assert s[o].serviceName == s[i].dependsOn.value;
      } else {
        assert i == o + 2;
        assert s[o + 1].serviceName == s[i].dependsOn.value;
      }
    }
  }
}
