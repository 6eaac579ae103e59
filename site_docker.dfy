/** The compose-binding builder of `Site_Docker::generate_docker_compose_yml`.

    Given the list of flag strings the caller passes (`le`, `wpsubdom`,
    `wpredis`; anything else is ignored), the builder fills one record per
    Docker service and collects them, in a fixed order, into the binding that
    the compose template is rendered from. The binding is the output of this
    model; the template and its rendering are not part of it.
 */
module SiteDocker {
  import opened Env
  import opened Compose

  const RestartDefault: string := "always"
  const NetworkDefault: string := "site-network"

  /** The `${VIRTUAL_HOST}` host together with every subdomain of it. */
  const WildcardHosts: string := "${VIRTUAL_HOST},HostRegexp:{subdomain:.+}.${VIRTUAL_HOST}"

  // ---------------------------------------------------------------------
  // The service records, with the literals of the source.
  // ---------------------------------------------------------------------

  function DbService(): Service {
    Service(Db, "easyengine/mariadb", Some(RestartDefault), None,
      ["./app/db:/var/lib/mysql"],
      ["MYSQL_ROOT_PASSWORD", "MYSQL_DATABASE", "MYSQL_USER", "MYSQL_PASSWORD"],
      None, NetworkDefault)
  }

  function PhpService(): Service {
    Service(Php, "easyengine/php", Some(RestartDefault), Some(Db),
      ["./app/src:/var/www/html", "./config/php-fpm/php.ini:/usr/local/etc/php/php.ini"],
      ["WORDPRESS_DB_HOST", "WORDPRESS_DB_USER=${MYSQL_USER}", "WORDPRESS_DB_PASSWORD=${MYSQL_PASSWORD}",
       "USER_ID=${USER_ID}", "GROUP_ID=${GROUP_ID}"],
      None, NetworkDefault)
  }

  // The three nginx entries are written as `Assign(key, value)`, which is
  // `key + "=" + value`: for example `Assign("VIRTUAL_HOST", WildcardHosts)` is
  // the literal `VIRTUAL_HOST=${VIRTUAL_HOST},HostRegexp:{subdomain:.+}.${VIRTUAL_HOST}`.

  /** The nginx virtual-host entry: the wildcard form with `wpsubdom`, the bare variable otherwise. */
  function VirtualHostEntry(wpsubdom: bool): string {
    if wpsubdom then Assign("VIRTUAL_HOST", WildcardHosts) else "VIRTUAL_HOST"
  }

  /** The certificate-host entry that `le` adds to nginx. */
  function LetsEncryptHostEntry(wpsubdom: bool): string {
    if wpsubdom then Assign("LETSENCRYPT_HOST", WildcardHosts) else Assign("LETSENCRYPT_HOST", "${VIRTUAL_HOST}")
  }

  /** The certificate e-mail entry that `le` adds to nginx. */
  function LetsEncryptEmailEntry(): string {
    Assign("LETSENCRYPT_EMAIL", "${VIRTUAL_HOST_EMAIL}")
  }

  /** The nginx environment: the virtual host alone, or with `le` the virtual
      host followed by the certificate host and the certificate e-mail. */
  function NginxEnvironment(le: bool, wpsubdom: bool): seq<string> {
    if le then [VirtualHostEntry(wpsubdom), LetsEncryptHostEntry(wpsubdom), LetsEncryptEmailEntry()]
    else [VirtualHostEntry(wpsubdom)]
  }

  /** The nginx record around a given environment list. */
  function NginxRecord(environment: seq<string>): Service {
    Service(Nginx, "easyengine/nginx", Some(RestartDefault), Some(Php),
      ["./app/src:/var/www/html", "./config/nginx/default.conf:/etc/nginx/conf.d/default.conf",
       "./logs/nginx:/var/log/nginx", "./config/nginx/common:/usr/local/openresty/nginx/conf/common"],
      environment,
      None, NetworkDefault)
  }

  function NginxService(le: bool, wpsubdom: bool): Service {
    NginxRecord(NginxEnvironment(le, wpsubdom))
  }

  function PhpMyAdminService(): Service {
    Service(PhpMyAdmin, "easyengine/phpmyadmin", Some(RestartDefault), None,
      [],
      ["VIRTUAL_HOST=pma.${VIRTUAL_HOST}"],
      None, NetworkDefault)
  }

  function MailService(): Service {
    Service(Mail, "easyengine/mail", Some(RestartDefault), None,
      [],
      ["VIRTUAL_HOST=mail.${VIRTUAL_HOST}", "VIRTUAL_PORT=8025"],
      Some("[\"-invite-jim=false\"]"), NetworkDefault)
  }

  /** The cache service: no restart policy, no volumes, no environment. */
  function RedisService(): Service {
    Service(Redis, "easyengine/redis", None, None, [], [], None, NetworkDefault)
  }

  // ---------------------------------------------------------------------
  // The builder.
  // ---------------------------------------------------------------------

  /** PHP's `in_array` over a list of strings: a scan for an equal element.
      The source calls it loosely for `le` and `wpsubdom` and strictly for
      `wpredis`. Loose comparison differs from string equality only when both
      sides are numeric strings, and none of the three needles is numeric,
      so all four calls are string equality here. */
  function InArray(needle: string, haystack: seq<string>): (found: bool)
    ensures found <==> needle in haystack
  {
    |haystack| > 0 && (haystack[0] == needle || InArray(needle, haystack[1..]))
  }

  /** The binding the builder produces for `filters`: redis first when
      `wpredis` is given, then db, php, nginx, mail and phpmyadmin. */
  function ComposeBinding(filters: seq<string>): (b: Binding)
    ensures b.network
    ensures |b.services| == if "wpredis" in filters then 6 else 5
    ensures RedisService() in b.services <==> "wpredis" in filters
    ensures "wpredis" in filters ==> b.services[0] == RedisService()
    ensures b.services[|b.services| - 1] == PhpMyAdminService()
  {
    var nginx := NginxService(InArray("le", filters), InArray("wpsubdom", filters));
    Binding(Assemble(InArray("wpredis", filters), RedisService(), DbService(), PhpService(),
                     nginx, MailService(), PhpMyAdminService()), true)
  }

  /** The builder as the source runs it: each record is filled, then the
      list is built by appending redis when `wpredis` is given and then the
      five other services, and finally wrapped in the binding. */
  method GenerateDockerComposeBinding(filters: seq<string>) returns (binding: Binding)
    ensures binding == ComposeBinding(filters)
  {
    var base: seq<Service> := [];
    var db := DbService();
    var php := PhpService();
    var vHost := VirtualHostEntry(InArray("wpsubdom", filters));
    var nginxEnv: seq<string>;
    if InArray("le", filters) {
      var leVHost := LetsEncryptHostEntry(InArray("wpsubdom", filters));
      nginxEnv := [vHost, leVHost, LetsEncryptEmailEntry()];
    } else {
      nginxEnv := [vHost];
    }
    var nginx := NginxRecord(nginxEnv);
    var phpmyadmin := PhpMyAdminService();
    var mail := MailService();
    var redis := RedisService();
    if InArray("wpredis", filters) {
      base := base + [redis];
    }
    base := base + [db];
    base := base + [php];
    base := base + [nginx];
    base := base + [mail];
    base := base + [phpmyadmin];
    binding := Binding(base, true);
  }

  // ---------------------------------------------------------------------
  // Properties of the binding.
  // ---------------------------------------------------------------------

  /** The records the source fills play the roles their names say. */
  lemma RecordRoles(le: bool, wpsubdom: bool)
    ensures Roles(RedisService(), DbService(), PhpService(), NginxService(le, wpsubdom),
                  MailService(), PhpMyAdminService())
  {
  }

  /** The services, by name, are `[redis?] ++ [db, php, nginx, mail, phpmyadmin]`:
      six with `wpredis`, five without, and db before php before nginx. */
  lemma ServiceOrder(filters: seq<string>)
    ensures Names(ComposeBinding(filters).services) ==
      (if "wpredis" in filters then [Redis] else []) + [Db, Php, Nginx, Mail, PhpMyAdmin]
  {
    var le, wpsubdom := "le" in filters, "wpsubdom" in filters;
    RecordRoles(le, wpsubdom);
    AssembleNames("wpredis" in filters, RedisService(), DbService(), PhpService(),
                  NginxService(le, wpsubdom), MailService(), PhpMyAdminService());
  }

  /** No two services of the binding share a name, and they come in the
      order of the compose file. */
  lemma NamesAreDistinct(filters: seq<string>)
    ensures DistinctNames(ComposeBinding(filters).services)
    ensures InFileOrder(ComposeBinding(filters).services)
  {
    var le, wpsubdom := "le" in filters, "wpsubdom" in filters;
    RecordRoles(le, wpsubdom);
    AssembleInFileOrder("wpredis" in filters, RedisService(), DbService(), PhpService(),
                        NginxService(le, wpsubdom), MailService(), PhpMyAdminService());
  }

  /** Looking each service up by name finds the record the source fills;
      redis is there exactly when `wpredis` is given. */
  lemma ServicesByName(filters: seq<string>)
    ensures var s := ComposeBinding(filters).services;
      && Lookup(s, Redis) == (if "wpredis" in filters then Some(RedisService()) else None)
      && Lookup(s, Db) == Some(DbService())
      && Lookup(s, Php) == Some(PhpService())
      && Lookup(s, Nginx) == Some(NginxService("le" in filters, "wpsubdom" in filters))
      && Lookup(s, Mail) == Some(MailService())
      && Lookup(s, PhpMyAdmin) == Some(PhpMyAdminService())
  {
    var le, wpsubdom := "le" in filters, "wpsubdom" in filters;
    RecordRoles(le, wpsubdom);
    AssembleLookup("wpredis" in filters, RedisService(), DbService(), PhpService(),
                   NginxService(le, wpsubdom), MailService(), PhpMyAdminService());
  }

  /** php depends on db and nginx on php, and every dependency in the binding
      names a service listed before it. */
  lemma DependenciesComeFirst(filters: seq<string>)
    ensures Lookup(ComposeBinding(filters).services, Php).Some?
    ensures Lookup(ComposeBinding(filters).services, Php).value.dependsOn == Some(Db)
    ensures Lookup(ComposeBinding(filters).services, Nginx).Some?
    ensures Lookup(ComposeBinding(filters).services, Nginx).value.dependsOn == Some(Php)
    ensures DependenciesPointBackwards(ComposeBinding(filters).services)
  {
    var le, wpsubdom := "le" in filters, "wpsubdom" in filters;
    RecordRoles(le, wpsubdom);
    ServicesByName(filters);
    AssembleDependencies("wpredis" in filters, RedisService(), DbService(), PhpService(),
                         NginxService(le, wpsubdom), MailService(), PhpMyAdminService());
  }

  /** Every service is on `site-network`; every service but redis restarts
      `always`, and redis has no restart policy. */
  lemma NetworkAndRestart(filters: seq<string>)
    ensures forall s :: s in ComposeBinding(filters).services ==> s.networks == "site-network"
    ensures forall s :: s in ComposeBinding(filters).services ==>
      if s.serviceName == Redis then s.restart.None? else s.restart == Some("always")
  {
  }

  /** Only nginx and the presence of redis depend on the flags: db, php, mail,
      phpmyadmin and the network flag are the same for every flag list. */
  lemma FlagIndependentServices(f1: seq<string>, f2: seq<string>)
    ensures var s1, s2 := ComposeBinding(f1).services, ComposeBinding(f2).services;
      && Lookup(s1, Db) == Lookup(s2, Db)
      && Lookup(s1, Php) == Lookup(s2, Php)
      && Lookup(s1, Mail) == Lookup(s2, Mail)
      && Lookup(s1, PhpMyAdmin) == Lookup(s2, PhpMyAdmin)
    ensures ComposeBinding(f1).network == ComposeBinding(f2).network
  {
    ServicesByName(f1);
    ServicesByName(f2);
  }

  /** The nginx record for the given flags, with its environment under each of
      the four combinations of `le` and `wpsubdom`. */
  lemma NginxTable(filters: seq<string>)
    ensures Lookup(ComposeBinding(filters).services, Nginx) == Some(NginxService("le" in filters, "wpsubdom" in filters))
    ensures var env := NginxService("le" in filters, "wpsubdom" in filters).environment;
      match ("le" in filters, "wpsubdom" in filters)
      case (false, false) => env == ["VIRTUAL_HOST"]
      case (false, true) => env == [Assign("VIRTUAL_HOST", WildcardHosts)]
      case (true, false) => env == ["VIRTUAL_HOST", Assign("LETSENCRYPT_HOST", "${VIRTUAL_HOST}"),
                                    Assign("LETSENCRYPT_EMAIL", "${VIRTUAL_HOST_EMAIL}")]
      case (true, true) => env == [Assign("VIRTUAL_HOST", WildcardHosts),
                                   Assign("LETSENCRYPT_HOST", WildcardHosts),
                                   Assign("LETSENCRYPT_EMAIL", "${VIRTUAL_HOST_EMAIL}")]
  {
    ServicesByName(filters);
  }

  /** Read as variables, the nginx environment sets `VIRTUAL_HOST`, and with
      `le` also `LETSENCRYPT_HOST` and `LETSENCRYPT_EMAIL`, in that order. */
  lemma NginxEnvironmentKeys(le: bool, wpsubdom: bool)
    ensures Keys(NginxEnvironment(le, wpsubdom)) ==
      if le then ["VIRTUAL_HOST", "LETSENCRYPT_HOST", "LETSENCRYPT_EMAIL"] else ["VIRTUAL_HOST"]
  {
    VirtualHostSplit(wpsubdom);
    if le {
      LetsEncryptSplit(wpsubdom);
    }
  }

  /** The virtual host routes the wildcard hosts exactly when `wpsubdom` is
      given; otherwise it is the bare `VIRTUAL_HOST` variable. */
  lemma VirtualHostSplit(wpsubdom: bool)
    ensures Key(VirtualHostEntry(wpsubdom)) == "VIRTUAL_HOST"
    ensures HasValue(VirtualHostEntry(wpsubdom)) <==> wpsubdom
    ensures wpsubdom ==> Value(VirtualHostEntry(wpsubdom)) == WildcardHosts
  {
    if wpsubdom {
      SplitAssignment("VIRTUAL_HOST", WildcardHosts);
    } else {
      SplitBare("VIRTUAL_HOST");
    }
  }

  /** The certificate host uses the wildcard hosts exactly when `wpsubdom` is
      given; otherwise it names the plain site host. */
  lemma LetsEncryptSplit(wpsubdom: bool)
    ensures Key(LetsEncryptHostEntry(wpsubdom)) == "LETSENCRYPT_HOST"
    ensures HasValue(LetsEncryptHostEntry(wpsubdom))
    ensures Value(LetsEncryptHostEntry(wpsubdom)) == if wpsubdom then WildcardHosts else "${VIRTUAL_HOST}"
    ensures Key(LetsEncryptEmailEntry()) == "LETSENCRYPT_EMAIL"
  {
    if wpsubdom {
      SplitAssignment("LETSENCRYPT_HOST", WildcardHosts);
    } else {
      SplitAssignment("LETSENCRYPT_HOST", "${VIRTUAL_HOST}");
    }
    SplitAssignment("LETSENCRYPT_EMAIL", "${VIRTUAL_HOST_EMAIL}");
  }

  /** An entry that routes the site host and all its subdomains. */
  predicate RoutesWildcard(entry: string) {
    HasValue(entry) && Value(entry) == WildcardHosts
  }

  /** The host entries of nginx use the wildcard form exactly when `wpsubdom`
      is given; the e-mail entry never does. */
  lemma WildcardExactlyWithWpsubdom(le: bool, wpsubdom: bool)
    ensures var env := NginxEnvironment(le, wpsubdom);
      && |env| == (if le then 3 else 1)
      && (RoutesWildcard(env[0]) <==> wpsubdom)
      && (le ==> (RoutesWildcard(env[1]) <==> wpsubdom) && !RoutesWildcard(env[2]))
  {
    VirtualHostSplit(wpsubdom);
    LetsEncryptSplit(wpsubdom);
  }

  /** With `le`, the certificate is requested for the hosts nginx routes:
      the certificate host has the value of the virtual-host entry, and a bare
      `VIRTUAL_HOST` entry stands for `${VIRTUAL_HOST}`. */
  lemma CertificateCoversRoutedHosts(wpsubdom: bool)
    ensures var env := NginxEnvironment(true, wpsubdom);
      && |env| == 3 && HasValue(env[1])
      && Value(env[1]) == if HasValue(env[0]) then Value(env[0]) else "${VIRTUAL_HOST}"
  {
    VirtualHostSplit(wpsubdom);
    LetsEncryptSplit(wpsubdom);
  }

  /** The binding depends on the flags only through whether `le`, `wpsubdom`
      and `wpredis` occur: other tokens, repetitions and order are ignored. */
  lemma OnlyFlagsMatter(f1: seq<string>, f2: seq<string>)
    requires ("le" in f1 <==> "le" in f2)
    requires ("wpsubdom" in f1 <==> "wpsubdom" in f2)
    requires ("wpredis" in f1 <==> "wpredis" in f2)
    ensures ComposeBinding(f1) == ComposeBinding(f2)
  {
  }
}
