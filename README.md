# Compose binding of `Site_Docker::generate_docker_compose_yml`

This project models the part of the site command that decides what goes into a
site's `docker-compose.yml`. The caller passes a list of flag strings:

- `le` asks for a Let's Encrypt certificate;
- `wpsubdom` asks for wildcard-subdomain routing;
- `wpredis` asks for a redis cache.

The builder fills one record per Docker service. It lists them in a fixed
order: redis first when `wpredis` is given, then `db`, `php`, `nginx`, `mail`
and `phpmyadmin`. It wraps the list, with `network => true`, in the binding
that the compose template is rendered from. The binding is the output of the
model.

Layout:

- `compose.dfy`, module `Compose`: the data model. It has the service `Name`s,
  the `Service` record, the `Binding`, and lookup of a service by name. It also
  has `Assemble`, the order in which the records are appended. The facts about
  `Assemble` (order, distinct names, lookup, dependencies pointing backwards)
  are proved for any records that carry the right names and dependencies.
- `env.dfy`, module `Env`: reads an environment entry. An entry is either a
  bare variable (`VIRTUAL_HOST`) or `KEY=value`. `Assign(key, value)` writes
  the second form, and `Key`/`Value` read it back.
- `site_docker.dfy`, module `SiteDocker`: the six records with the source's
  literals, and the nginx environment decided by `le` and `wpsubdom`.
  `InArray` models PHP's `in_array`. `ComposeBinding` is the builder as a
  function. `GenerateDockerComposeBinding` is the builder as the source runs
  it: it fills the records, appends to a list and wraps the list. The lemmas
  state what the binding is for every flag list.

Modelling notes:

- Service names are the enumeration `Name`, and `Name.Text()` gives the string
  the source writes (`"db"`, `"php"`, ...). `dependsOn` holds a `Name` too.
  `NameTextsDistinct` shows that distinct names are written differently, so
  nothing is lost by this.
- The nginx entries are written as `Assign("VIRTUAL_HOST", WildcardHosts)` and
  so on. `Assign(k, v)` is `k + "=" + v`, so each entry is the same string as
  the source's literal (for example
  `VIRTUAL_HOST=${VIRTUAL_HOST},HostRegexp:{subdomain:.+}.${VIRTUAL_HOST}`).
  That each of them spells the source's literal follows from reading
  `Assign`. It is not stated as a lemma, because comparing the longer
  literals character by character is beyond what the verifier does in
  reasonable time. `NginxTable` and the lemmas after it state the entries
  through `Assign` and `WildcardHosts`. All other entries are kept as plain
  literals.
- `in_array` is called with loose comparison for `le` and `wpsubdom` (lines
  55-57) and with strict comparison for `wpredis` (line 83). When both sides
  are strings and the needle is not numeric, as here, the two agree. The model
  therefore compares strings for equality in all four calls.
- The source takes an array, not a set. `OnlyFlagsMatter` shows that only the
  presence of the three flags matters: other tokens, repeats and order change
  nothing.
- The builder is deterministic because it is a function of its argument.
  Calling it twice with the same flags gives the same binding.
- The `mail` record also has a `command` field (line 74), which the model
  keeps.
- `redis` sets only a name, an image and a network (lines 79-81), so its
  restart policy is `None`. `phpmyadmin` and `mail` set no volumes (lines
  65-76).

## Model

| member | source | states |
|---|---|---|
| `SiteDocker.InArray` | src/Site_Docker.php:55-83 | the `in_array` test (the loose calls at lines 55-57 and the strict call at line 83) is true exactly when the flag is an element of the filter list |
| `SiteDocker.ComposeBinding` | src/Site_Docker.php:83-95 | the network flag is always true; there are 6 services with `wpredis` and 5 without; the redis record is in the list exactly when `wpredis` is given, and is then first; `phpmyadmin` is always last |
| `SiteDocker.GenerateDockerComposeBinding` | src/Site_Docker.php:16-95 | filling the records and appending them one by one gives exactly the binding `ComposeBinding` describes |
| `SiteDocker.DbService` | src/Site_Docker.php:21-33 | no contract: the db record with the source's literals |
| `SiteDocker.PhpService` | src/Site_Docker.php:35-49 | no contract: the php record with the source's literals, depending on db |
| `SiteDocker.VirtualHostEntry` | src/Site_Docker.php:55 | no contract: the virtual-host entry, wildcard with `wpsubdom` and bare otherwise; its reading is `VirtualHostSplit` |
| `SiteDocker.LetsEncryptHostEntry` | src/Site_Docker.php:57 | no contract: the certificate-host entry; its reading is `LetsEncryptSplit` |
| `SiteDocker.LetsEncryptEmailEntry` | src/Site_Docker.php:58 | no contract: the certificate e-mail entry; its key is stated by `LetsEncryptSplit` |
| `SiteDocker.NginxEnvironment` | src/Site_Docker.php:55-61 | no contract: the nginx environment chosen by `le`; its properties are `NginxEnvironmentKeys`, `WildcardExactlyWithWpsubdom` and `CertificateCoversRoutedHosts` |
| `SiteDocker.NginxRecord` | src/Site_Docker.php:51-63 | no contract: the nginx record around a given environment list |
| `SiteDocker.NginxService` | src/Site_Docker.php:51-63 | no contract: the nginx record for the given `le` and `wpsubdom` |
| `SiteDocker.PhpMyAdminService` | src/Site_Docker.php:65-69 | no contract: the phpmyadmin record with the source's literals |
| `SiteDocker.MailService` | src/Site_Docker.php:71-76 | no contract: the mail record with the source's literals, including its `command` |
| `SiteDocker.RedisService` | src/Site_Docker.php:79-81 | no contract: the redis record, with a name, an image and a network only |
| `Compose.Assemble` | src/Site_Docker.php:83-91 | the list has 6 entries with redis and 5 without; its order, names, lookups and dependencies are the `Assemble*` lemmas |
| `SiteDocker.RecordRoles` | src/Site_Docker.php:21-81 | each record the source fills carries its own service name; php depends on db, nginx on php, and no other record has a dependency |
| `SiteDocker.ServiceOrder` | src/Site_Docker.php:83-91 | by name the services are `[redis?] ++ [db, php, nginx, mail, phpmyadmin]`, with redis exactly when `wpredis` is given |
| `SiteDocker.NamesAreDistinct` | src/Site_Docker.php:83-91 | no two services share a name, and the services follow the fixed order of the compose file |
| `SiteDocker.ServicesByName` | src/Site_Docker.php:17-91 | looking a service up by name gives the record the source fills (nginx for the given `le` and `wpsubdom`); redis is found exactly when `wpredis` is given |
| `SiteDocker.DependenciesComeFirst` | src/Site_Docker.php:37-89 | php depends on db and nginx on php, and every dependency names a service listed earlier |
| `SiteDocker.NetworkAndRestart` | src/Site_Docker.php:18-81 | every service is on `site-network`; every service except redis restarts `always`, and redis has no restart policy |
| `SiteDocker.FlagIndependentServices` | src/Site_Docker.php:21-95 | for any two flag lists, the db, php, mail and phpmyadmin records and the network flag are the same |
| `SiteDocker.NginxTable` | src/Site_Docker.php:55-61 | the nginx record is the one for the flags given; its environment under each of the four `le`/`wpsubdom` combinations is given entry by entry |
| `SiteDocker.NginxEnvironmentKeys` | src/Site_Docker.php:56-61 | read as variables, the nginx environment sets `VIRTUAL_HOST`; with `le` it then also sets `LETSENCRYPT_HOST` and `LETSENCRYPT_EMAIL`, in that order, and it has no other entries |
| `SiteDocker.VirtualHostSplit` | src/Site_Docker.php:55 | the virtual-host entry sets `VIRTUAL_HOST`; it assigns the wildcard hosts exactly when `wpsubdom` is given, and is otherwise the bare variable |
| `SiteDocker.LetsEncryptSplit` | src/Site_Docker.php:57-58 | the certificate-host entry assigns `LETSENCRYPT_HOST` the wildcard hosts with `wpsubdom` and `${VIRTUAL_HOST}` without; the e-mail entry sets `LETSENCRYPT_EMAIL` |
| `SiteDocker.WildcardExactlyWithWpsubdom` | src/Site_Docker.php:55-61 | nginx has 1 entry without `le` and 3 with it; the host entries use the wildcard form if and only if `wpsubdom` is given; the e-mail entry never does |
| `SiteDocker.CertificateCoversRoutedHosts` | src/Site_Docker.php:55-58 | with `le`, the certificate host gets the value the virtual host routes (`${VIRTUAL_HOST}` when that entry is bare) |
| `SiteDocker.OnlyFlagsMatter` | src/Site_Docker.php:55-83 | two filter lists that agree on whether `le`, `wpsubdom` and `wpredis` occur give the same binding |
| `Compose.AssembleNames` | src/Site_Docker.php:83-91 | for any records with the right names, appending gives the names `[redis?] ++ [db, php, nginx, mail, phpmyadmin]` |
| `Compose.AssembleInFileOrder` | src/Site_Docker.php:83-91 | for such records, the appended list follows the fixed file order, so no name occurs twice |
| `Compose.AssembleLookup` | src/Site_Docker.php:83-91 | for such records, looking up each name finds its record, and redis is found exactly when it was appended |
| `Compose.AssembleDependencies` | src/Site_Docker.php:83-91 | for such records, every dependency names a service appended earlier |
| `Env.SplitAssignment` | src/Site_Docker.php:55-58 | an entry written `key=value`, where the key has no `=`, reads back as that key and that value |
| `Env.SplitBare` | src/Site_Docker.php:55 | an entry without `=` is a bare variable: it has no value and is its own key |

## Left out

- The `mustache_render` call, the `docker-compose.mustache` template and the YAML text it produces (lines 97-99). The renderer is a foreign library and the template file is not part of this model, so the binding is the output.
- The `'name'`, `'vol'` and `'env'` wrapper arrays, which exist only for the template. They become typed fields that keep the literal strings and the order of every volume and environment list. The `db` volumes use a different nesting from the other services (line 24), and that difference is not kept.
- PHP's type juggling in the loose `in_array` calls (lines 55-57). It comes into play only for non-string filter values, and the model takes the filters as strings.
- The `${...}` substitutions inside the strings. The compose tool resolves them, not this code, so they are kept as opaque text.
