# SOLIDserver Terraform provider: a Dafny model of its handler logic

This project models the decision and arithmetic logic of the Terraform provider for EfficientIP SOLIDserver (DDI: IPAM, DNS, VLAN manager, application manager). Each modelled resource is a Dafny `class`. Its fields are the Terraform attributes the handlers touch, and its Create/Read/Update/Delete/Exists/Import handlers are methods. The inventory's REST interface is an oracle.

- **The oracle.** Each handler receives the server's `Reply` to each request it sends. A reply is a transport error or an answer with its status and the decoded JSON records. The handler returns the requests it sent and its verdict (`Diag`).
- **Helpers outside this model** are fields of a `Helpers` datatype of function values. These are the address codec, `urlfromclassparams`, `typeListConsistentMerge` and `url.ParseQuery`. A lemma that needs a law about one of them states the law in its `requires`.
- **The inventory searches** (site, parent block, free candidates) are `Lookup` function values, collected per resource in an `Inventory` datatype.

Modules:

- `Base`: replies, requests, verdicts, `url.Values`, and the shared success tests and error verdicts.
- `Text`:
  - `strconv.Itoa`/`Atoi`, `strings.ToUpper`/`ToLower`/`Split`/`TrimSuffix`;
  - the `address/length` prefix string and the `col='value' AND ...` where clause;
  - their round-trip laws.
- `ClassParams`: class parameters (free-form tags).
  - Outgoing: the provider's own tags, then the configured ones.
  - Incoming to a resource: exactly the configured keys, with "" for a missing key.
  - Incoming to a data source: every key but `gateway`.
- `Reservation`: the optimistic reservation loop shared by the IPv4 subnet, IPv6 subnet and VLAN creates. It walks the candidates in order, stops at the first answer carrying an object id, aborts on a transport error, and reports exhaustion.
- `Gateway`: the gateway offset arithmetic.
  - IPv4 wraps modulo 2^32 and puts offset -1 on the second-to-last address.
  - IPv6 is unbounded and puts -1 on the last address.
- `IpSubnet`, `Ip6Subnet`, `Vlan`, `DnsRR`, `Ip6Pool`, `Application`, `Ip6Mac`: the resources.
- `IpSubnetData`, `Ip6AddressData`: the two data sources.
- `Provider`: the `solidserverversion` setting's validator.

## Model

| member | source | states |
|---|---|---|
| Base.DeleteDiag | solidserver/resource_ip_subnet.go:372-392 | a delete succeeds exactly on status 200 or 204; a transport error is reported as is; any other status fails with a message that starts with the failure text |
| Base.SubmitDiag | solidserver/resource_dns_rr.go:190-211 | a create/update succeeds exactly when the answer carries `ret_oid`; otherwise the failure text with the server's `errmsg` in parentheses, or followed by a newline |
| Base.ReleaseDiag | solidserver/resource_ip6_subnet.go:318-359 | the gateway release fails only on a transport error; any answer, a refusal included, counts as success |
| Base.RetOid | solidserver/resource_ip_subnet.go:219-220 | an object id is returned exactly for a 200/201 answer with a record carrying `ret_oid` |
| Text.LowerAfterUpper | solidserver/resource_dns_rr.go:77 | upper- and lower-casing are idempotent, and each forgets an earlier change of case |
| Text.ItoaRoundTrip | solidserver/resource_dns_rr.go:362 | `strconv.Atoi` reads back every number `strconv.Itoa` writes |
| Text.Split | solidserver/resource_application.go:253 | `strings.Split` always yields at least one piece |
| Text.TerminatedSnoc | solidserver/resource_application.go:81-85 | appending a member appends it and its separator to the list |
| Text.SplitTerminated | solidserver/resource_application.go:253 | trimming the last separator and splitting a separator-terminated list gives back its members, when none contains the separator |
| Text.PrefixRoundTrip | solidserver/resource_ip_subnet.go:216 | a prefix string `address + "/" + Itoa(length)` parses back into its address and its length, whatever the address text |
| Text.ConjunctionSnoc | solidserver/resource_dns_rr.go:109-130 | appending a condition to a where clause appends " AND col='value'" |
| ClassParams.AddAll | solidserver/resource_ip_subnet.go:200-202 | the tag loop appends each configured tag after the values already present for its key |
| ClassParams.AppendedKeepsFirst | solidserver/resource_ip_subnet.go:184-202 | after the loop every key has a value, a tag the provider set keeps its first value, and a configured tag alone under its key is that tag |
| ClassParams.Reconcile | solidserver/resource_ip_subnet.go:438-446 | the read loop yields exactly the configured keys, each with the first returned value or "" when the server has none |
| ClassParams.ReadBackSent | solidserver/resource_ip_subnet.go:438-446 | reading back what a create sent reports each configured tag as configured, except one also set by the provider, which reports the provider's value |
| ClassParams.ReconciledIdentity | solidserver/resource_ip_subnet.go:438-446 | configured tags that come back first with their configured values are reported unchanged |
| ClassParams.ReadBackDisjoint | solidserver/resource_ip_subnet.go:438-446 | when the provider sets none of the configured keys, a read of what was sent reports the configuration unchanged |
| ClassParams.DropGateway | solidserver/data_source_ip_subnet.go:121-129 | the data-source loop keeps every returned key but `gateway`, each with its first value |
| ClassParams.DataSourceTagsAreStable | solidserver/data_source_ip_subnet.go:121-129 | tags reported by a data source, configured on a resource, read back unchanged |
| Reservation.Classify | solidserver/resource_ip_subnet.go:219-245 | how one attempt ends: a 200/201 answer whose first record carries `ret_oid` wins, a transport error is fatal, every other answer loses; `Reservation.OidlessAnswerLoses` and `Reservation.Decide` state its consequences for the loop |
| Reservation.OidlessAnswerLoses | solidserver/resource_ip_subnet.go:219-230 | a 200/201 answer without `ret_oid` loses, so the loop moves on |
| Reservation.Decide | solidserver/resource_ip_subnet.go:158-249 | the first attempt that does not lose decides; every earlier attempt lost; exhaustion exactly when every attempt lost |
| Reservation.Reserve | solidserver/resource_ip_subnet.go:158-249 | the loop's verdict is `Decide` of the answers, and it sends exactly the requests up to and including the deciding one |
| Reservation.DecidedAt | solidserver/resource_ip_subnet.go:219-245 | the first non-losing attempt after a run of losses decides the walk: a win reserves, a transport error aborts |
| Reservation.DecidedPrefixIsFinal | solidserver/resource_ip_subnet.go:229 | answers after the deciding attempt are never consulted |
| Reservation.ExhaustedPrefixShifts | solidserver/resource_ip_subnet.go:231-241 | candidates that all lose only delay the walk over the rest |
| Gateway.Gateway4 | solidserver/resource_ip_subnet.go:189-194 | the IPv4 gateway as written: `start + uint32(offset)` for a positive offset, `start + uint32(size) - uint32(abs(offset)) - 1` for a negative one, each step wrapping modulo 2^32; its meaning is stated by `Gateway.Gateway4Modular` and the lemmas below it |
| Gateway.Gateway6 | solidserver/resource_ip6_subnet.go:189-199 | the IPv6 gateway as written: `start + offset` for a positive offset, `start + size - abs(offset)` for a negative one, on unbounded integers; its meaning is stated by `Gateway.Gateway6InBlock` and `Gateway.Gateway4And6Differ` |
| Gateway.Gateway4Modular | solidserver/resource_ip_subnet.go:189-194 | the IPv4 gateway is start+k mod 2^32 for offset k > 0, and start+size-k-1 mod 2^32 for offset -k |
| Gateway.Gateway4InBlock | solidserver/resource_ip_subnet.go:189-194 | inside a block that fits the address space, an offset smaller than the block lands in the block; a negative offset never reaches the last address |
| Gateway.Gateway4BelowBlock | solidserver/resource_ip_subnet.go:193 | there is no range check: offset -size lands just before the block |
| Gateway.Gateway4AboveBlock | solidserver/resource_ip_subnet.go:191 | there is no range check: offset +size lands just after the block |
| Gateway.Gateway4Wraps | solidserver/resource_ip_subnet.go:193 | the uint32 wrap: from the block at address 0, offset -size gives 255.255.255.255 |
| Gateway.Gateway6InBlock | solidserver/resource_ip6_subnet.go:189-199 | without wrap-around, the IPv6 gateway lies in the block for any offset within range, and offset -1 is the block's last address |
| Gateway.Gateway4And6Differ | solidserver/resource_ip_subnet.go:189-194 | the IPv4 and IPv6 formulas agree on positive offsets and differ by exactly one on negative ones |
| IpSubnet.Prepare | solidserver/resource_ip_subnet.go:124-156 | the lookups before the loop: a site error is reported first; success means the site, the parent block (when one is configured) and the free-prefix search all succeeded and their results are the plan; a terminal block never succeeds |
| IpSubnet.TerminalBlockRefused | solidserver/resource_ip_subnet.go:146-148 | a terminal subnet without a parent block is refused before any search |
| IpSubnet.SubnetLevel | solidserver/resource_ip_subnet.go:169-174 | `subnet_level`: "0" for a block, otherwise the parent's level plus one, written in decimal; stated by `IpSubnet.SubnetLevelBelowParent` |
| IpSubnet.SubnetLevelBelowParent | solidserver/resource_ip_subnet.go:169-174 | a subnet inside a block is created one level below its parent |
| IpSubnet.AddRequests | solidserver/resource_ip_subnet.go:158-204 | one creation request per candidate |
| IpSubnet.SentTagsReadBack | solidserver/resource_ip_subnet.go:184-204 | a configured offset puts the computed gateway first under `gateway`; every other configured tag reads back as configured |
| IpSubnet.SentTagsUnchanged | solidserver/resource_ip_subnet.go:184-204 | without a `gateway` tag set twice, a read of the sent tags reports the configuration |
| IpSubnet.GatewayInCandidateBlock | solidserver/resource_ip_subnet.go:187-198 | under the block-size law, the gateway of a candidate lies in its block at start+k, or start+size-1-k |
| IpSubnet.ReadAfterCreate | solidserver/resource_ip_subnet.go:417-446 | reading back a created subnet's record gives its configuration back: no drift |
| IpSubnet.EchoedRecord | solidserver/resource_ip_subnet.go:417-446 | a record echoing every configured attribute reads back as the configuration |
| IpSubnet.ImportRecoversPrefix | solidserver/resource_ip_subnet.go:491-500 | an import recovers the prefix length from the reported size, and its prefix string parses back |
| IpSubnet.Subnet.Create | solidserver/resource_ip_subnet.go:118-250 | inventory errors first; then the reservation loop; the winner sets id, address, prefix, netmask and (with an offset) gateway; abort and exhaustion change nothing |
| IpSubnet.Subnet.GatewayDelete | solidserver/resource_ip_subnet.go:314-355 | sends the gateway release; only a transport error fails |
| IpSubnet.Subnet.Delete | solidserver/resource_ip_subnet.go:357-400 | with an offset the gateway release goes first and is ignored; the id is cleared exactly when the delete succeeds |
| IpSubnet.Subnet.Read | solidserver/resource_ip_subnet.go:402-469 | a 200 answer refreshes the configuration and the gateway; any other answer fails and changes nothing |
| IpSubnet.Subnet.Import | solidserver/resource_ip_subnet.go:471-543 | a 200 answer imports the configuration and the gateway, and sets address, prefix and netmask from the start address and the prefix length derived from the size; any other answer fails and changes nothing |
| Ip6Subnet.Prepare | solidserver/resource_ip6_subnet.go:124-155 | the lookups before the loop: a site error is reported first; success means the site, the parent block (when one is configured) and the free-prefix search all succeeded and their results are the plan; a terminal block never succeeds |
| Ip6Subnet.TerminalBlockRefused | solidserver/resource_ip6_subnet.go:146-148 | a terminal subnet without a parent block is refused before any search |
| Ip6Subnet.Placement | solidserver/resource_ip6_subnet.go:169-174 | where the subnet goes: a block at level 0; a subnet at the end of its parent (`use_reversed_relative_position` 1, `relative_position` 0) |
| Ip6Subnet.AddRequests | solidserver/resource_ip6_subnet.go:158-208 | one creation request per candidate |
| Ip6Subnet.SentTagsReadBack | solidserver/resource_ip6_subnet.go:184-208 | a configured offset puts the computed gateway first; every other configured tag reads back as configured |
| Ip6Subnet.SentTagsUnchanged | solidserver/resource_ip6_subnet.go:184-208 | without a `gateway` tag set twice, a read of the sent tags reports the configuration |
| Ip6Subnet.GatewayInCandidateBlock | solidserver/resource_ip6_subnet.go:189-199 | under the block-size law, the gateway lies in the candidate's block; -1 is its last address |
| Ip6Subnet.EchoedRecord | solidserver/resource_ip6_subnet.go:420-450 | a record echoing every configured attribute reads back as the configuration |
| Ip6Subnet.ReadAfterCreate | solidserver/resource_ip6_subnet.go:420-450 | reading back a created subnet's record gives its configuration back |
| Ip6Subnet.Subnet6.Create | solidserver/resource_ip6_subnet.go:119-253 | inventory errors first; then the reservation loop; the winner sets id, address, prefix and (with an offset) gateway |
| Ip6Subnet.Subnet6.GatewayDelete | solidserver/resource_ip6_subnet.go:318-359 | sends the gateway release; a refusal is reported as success |
| Ip6Subnet.Subnet6.Delete | solidserver/resource_ip6_subnet.go:361-404 | the gateway release goes first and is ignored; the id is cleared exactly when the delete succeeds |
| Ip6Subnet.Subnet6.Refresh | solidserver/resource_ip6_subnet.go:420-450 | a read answer sets the configuration to its read-back and the gateway to the returned tag |
| Ip6Subnet.Subnet6.Read | solidserver/resource_ip6_subnet.go:406-473 | a 200 answer refreshes; any other answer fails and changes nothing |
| Ip6Subnet.Subnet6.Import | solidserver/resource_ip6_subnet.go:475-540 | the same refresh as a read, with the import's error message |
| Vlan.CandidatesAsWritten | solidserver/resource_vlan.go:111-115 | the candidate ids as written: a positive requested id goes through the `.(string)` assertion on an integer (None is the panic); otherwise the free-id search; stated by `Vlan.RequestedIdPanics` and `Vlan.SearchUnaffected` |
| Vlan.Candidates | solidserver/resource_vlan.go:111-115 | the candidate ids as intended: a positive requested id, in decimal, is the only candidate; otherwise the free-id search; stated by `Vlan.RequestedIdIsSoleCandidate` |
| Vlan.RequestedIdPanics | solidserver/resource_vlan.go:112 | as written, any positive requested id makes the create panic |
| Vlan.SearchUnaffected | solidserver/resource_vlan.go:111-115 | without a requested id, the written and the intended candidate lists agree |
| Vlan.RequestedIdIsSoleCandidate | solidserver/resource_vlan.go:111-115 | a requested id is the single candidate, no search is consulted, and it reads back as the requested number |
| Vlan.AddRequests | solidserver/resource_vlan.go:122-135 | one creation request per candidate id, in order |
| Vlan.VlanIdRoundTrip | solidserver/resource_vlan.go:247 | the read's `Atoi` recovers every VLAN number written in decimal |
| Vlan.UpdatePanics | solidserver/resource_vlan.go:166 | as written, every update panics |
| Vlan.UpdateKeepsVlanId | solidserver/resource_vlan.go:166 | the intended update sends the VLAN number so that a read recovers it |
| Vlan.DeleteVerdict | solidserver/resource_vlan.go:210-224 | a delete fails exactly when the status is not 204 and the answer carries `errmsg` |
| Vlan.DeleteStricterOn200 | solidserver/resource_vlan.go:210 | unlike the other deletes, a 200 answer with `errmsg` fails |
| Vlan.DeleteLaxerOnSilentRefusal | solidserver/resource_vlan.go:210 | unlike the other deletes, a refusal without `errmsg` succeeds |
| Vlan.Vlan.Exists | solidserver/resource_vlan.go:67-102 | found exactly on a 200/201 answer with a record; another answer clears the id |
| Vlan.Vlan.Create | solidserver/resource_vlan.go:104-157 | as intended (see Findings; as written the candidates are `Vlan.CandidatesAsWritten`, which panics on a requested id): a search error first; then the reservation loop over `Vlan.Candidates`; the winner sets the id; exhaustion fails |
| Vlan.Vlan.Update | solidserver/resource_vlan.go:159-193 | as intended (see Findings; as written the request is `Vlan.UpdateRequestAsWritten`, which panics on every update): sends `Vlan.UpdateRequest`; a returned object id sets the id; otherwise the update fails |
| Vlan.Vlan.Delete | solidserver/resource_vlan.go:195-229 | the verdict is `DeleteVerdict`; the id is cleared exactly on success |
| Vlan.Vlan.Read | solidserver/resource_vlan.go:231-289 | a 200 answer sets the name and the decoded VLAN number; any other answer fails and changes nothing |
| Vlan.Vlan.Import | solidserver/resource_vlan.go:291-342 | a 200 answer sets the name; any other answer fails |
| DnsRR.ValidateType | solidserver/resource_dns_rr.go:76-95 | a type is accepted exactly when its upper-case form is A, AAAA, PTR, CNAME, DNAME, TXT or NS |
| DnsRR.ValidationIgnoresCase | solidserver/resource_dns_rr.go:76-95 | the type check ignores case |
| DnsRR.MatchValue | solidserver/resource_dns_rr.go:112-118 | the value the lookup matches: an AAAA value in its expanded form, any other value as configured |
| DnsRR.Conditions | solidserver/resource_dns_rr.go:109-130 | the lookup has five conditions, and a sixth exactly when a zone is set |
| DnsRR.DefaultViewLookup | solidserver/resource_dns_rr.go:121-125 | without a view, the lookup asks for the default view "#" and no other |
| DnsRR.ZoneConditionWhenSet | solidserver/resource_dns_rr.go:128-130 | a zone condition is present exactly when a zone is set, and it comes last |
| DnsRR.ConditionsJoined | solidserver/resource_dns_rr.go:109-130 | the clause text is the conjunction of the lookup conditions |
| DnsRR.WhereClause | solidserver/resource_dns_rr.go:109-130 | the built clause is the conjunction of the conditions, followed by a space |
| DnsRR.Scoping | solidserver/resource_dns_rr.go:177-185 | the view and zone parameters of create and update; stated by `DnsRR.ScopingSent` and `DnsRR.ScopingIgnoresCase` |
| DnsRR.ScopingSent | solidserver/resource_dns_rr.go:177-185 | view and zone are sent lower-cased, and only when set |
| DnsRR.ScopingIgnoresCase | solidserver/resource_dns_rr.go:177-185 | the scoping sent does not depend on the case of view and zone |
| DnsRR.ReadBack | solidserver/resource_dns_rr.go:362-378 | the zone is kept; the view is kept when the server reports "#"; the TTL is the decoded number |
| DnsRR.ReadAfterCreate | solidserver/resource_dns_rr.go:362-378 | reading back a created record gives its configuration, with the type upper-cased and the view lower-cased |
| DnsRR.ResourceRecord.Exists | solidserver/resource_dns_rr.go:97-163 | the lookup by where clause; found exactly on a 200/201 answer; the id follows `rr_id`, or is cleared when nothing is found |
| DnsRR.ResourceRecord.Create | solidserver/resource_dns_rr.go:165-215 | the verdict is `SubmitDiag`; success sets the id |
| DnsRR.ResourceRecord.Update | solidserver/resource_dns_rr.go:217-268 | the verdict is `SubmitDiag`; success sets the id |
| DnsRR.ResourceRecord.Delete | solidserver/resource_dns_rr.go:270-313 | the verdict is `DeleteDiag`; the id is cleared exactly on success |
| DnsRR.ResourceRecord.Read | solidserver/resource_dns_rr.go:315-401 | the lookup by where clause; a 200 answer adopts `rr_id` and refreshes; any other answer fails |
| DnsRR.ResourceRecord.Import | solidserver/resource_dns_rr.go:403-456 | a 200 answer refreshes the configuration; any other answer fails |
| Ip6Pool.EncodeFlag | solidserver/resource_ip6_pool.go:164-170 | the DHCP flag as sent in the `dhcprange6` tag: "1" or "0"; inverted by `Ip6Pool.DecodeFlag` (`Ip6Pool.FlagRoundTrip`) |
| Ip6Pool.DecodeFlag | solidserver/resource_ip6_pool.go:335-339 | the read's reading of the tag: true exactly for "1" or "yes" in any case; stated by `Ip6Pool.FlagRoundTrip` and `Ip6Pool.DecodeAcceptsYes` |
| Ip6Pool.FlagRoundTrip | solidserver/resource_ip6_pool.go:164-170 | the read's decoding of the DHCP-range tag recovers the flag the create encoded |
| Ip6Pool.DecodeAcceptsYes | solidserver/resource_ip6_pool.go:335 | "yes", in any case, decodes as true |
| Ip6Pool.SentTagsCarryFlag | solidserver/resource_ip6_pool.go:164-176 | the sent tags carry `dhcprange6` first, and it decodes to the configured flag |
| Ip6Pool.ParentPrefixParses | solidserver/resource_ip6_pool.go:191-192 | the prefix set on create parses back into the parent's start address and prefix length |
| Ip6Pool.ReadBackAsWritten | solidserver/resource_ip6_pool.go:334-340 | as written, a read never changes the DHCP flag |
| Ip6Pool.ReadBack | solidserver/resource_ip6_pool.go:334-350 | as intended, the flag follows the returned `dhcprange6` tag when present; everything else is as written |
| Ip6Pool.FlagDriftMissed | solidserver/resource_ip6_pool.go:334-340 | a range turned on at the server goes unnoticed as written, and is reported as intended |
| Ip6Pool.ReadAfterCreate | solidserver/resource_ip6_pool.go:330-350 | reading back what a create sent gives the configuration back, flag included |
| Ip6Pool.Pool.Exists | solidserver/resource_ip6_pool.go:96-132 | found exactly on a 200/201 answer with a record; another answer clears the id |
| Ip6Pool.Pool.Create | solidserver/resource_ip6_pool.go:134-210 | lookup errors first; then one creation; success sets the id, the prefix and its size |
| Ip6Pool.Pool.Update | solidserver/resource_ip6_pool.go:212-268 | the verdict is `SubmitDiag`; success sets the id |
| Ip6Pool.Pool.Delete | solidserver/resource_ip6_pool.go:270-308 | the verdict is `DeleteDiag`; the id is cleared exactly on success |
| Ip6Pool.Pool.Refresh | solidserver/resource_ip6_pool.go:330-350 | a read answer sets the configuration to its intended read-back |
| Ip6Pool.Pool.Read | solidserver/resource_ip6_pool.go:310-373 | as intended (see Findings; as written the read-back is `Ip6Pool.ReadBackAsWritten`, which never changes the DHCP flag): a 200 answer refreshes by `Ip6Pool.ReadBack`; any other answer fails and changes nothing |
| Ip6Pool.Pool.Import | solidserver/resource_ip6_pool.go:375-436 | as intended (see Findings; as written the read-back is `Ip6Pool.ReadBackAsWritten`, which never changes the DHCP flag): the same refresh as a read, with the import's error message |
| Application.VersionGate | solidserver/resource_application.go:87-90 | a server older than 7.1.0 is refused with the unsupported-version message |
| Application.JoinMembers | solidserver/resource_application.go:81-85 | the member loop writes every member followed by ';' |
| Application.MemberListShape | solidserver/resource_application.go:81-85 | the list is empty exactly without members; otherwise it ends with ';' and starts with the first member |
| Application.MemberListDecodes | solidserver/resource_application.go:81-85 | the written list splits back into the members, when none contains ';' |
| Application.RemoteMembers | solidserver/resource_application.go:253 | the remote list always yields at least one member |
| Application.RemoteMembersRecovered | solidserver/resource_application.go:253 | a ','-terminated list of members splits back into them |
| Application.ImportedMembers | solidserver/resource_application.go:321-323 | an import keeps the members when the remote list is empty, and takes the split list otherwise |
| Application.ReadBack | solidserver/resource_application.go:242-270 | the read keeps exactly the configured tag keys |
| Application.Imported | solidserver/resource_application.go:316-338 | the import keeps exactly the configured tag keys |
| Application.ImportRecoversConfig | solidserver/resource_application.go:316-338 | importing the record of an application gives its configuration back |
| Application.App.Create | solidserver/resource_application.go:69-120 | refused without any request on an old server; otherwise one creation, and success sets the id |
| Application.App.Update | solidserver/resource_application.go:122-174 | refused on an old server; otherwise one update, and success sets the id |
| Application.App.Delete | solidserver/resource_application.go:176-219 | refused on an old server; otherwise the delete verdict clears the id on success |
| Application.App.Read | solidserver/resource_application.go:221-293 | refused on an old server; a 200 answer refreshes; any other answer fails |
| Application.App.Import | solidserver/resource_application.go:295-357 | refused on an old server; a 200 answer imports; any other answer fails |
| IpSubnetData.Describe | solidserver/data_source_ip_subnet.go:98-129 | the prefix parses back into the address and the length derived from the size; terminal exactly when `is_terminal` is "1"; every tag but `gateway` is reported; the gateway follows its tag |
| IpSubnetData.DescribesCreatedSubnet | solidserver/data_source_ip_subnet.go:98-129 | a subnet created by the resource is described with the terminal flag, prefix length and tags it was created with |
| IpSubnetData.SubnetData.Read | solidserver/data_source_ip_subnet.go:76-151 | the id is cleared first and set only on success; a 200 answer sets every fact; any other answer fails naming the subnet |
| Ip6AddressData.WhereClause | solidserver/data_source_ip6_address.go:89 | the lookup is the conjunction of the space condition and the hexadecimal address condition |
| Ip6AddressData.SameClause | solidserver/data_source_ip6_address.go:89 | the clause text is that conjunction |
| Ip6AddressData.ReportedMac | solidserver/data_source_ip6_address.go:112-116 | a MAC starting with "EIP:" is reported as "", any other verbatim; no reported MAC starts with "EIP:" |
| Ip6AddressData.Describe | solidserver/data_source_ip6_address.go:99-130 | the prefix joins the subnet's start and the length as written; the size is its number; the MAC filter and the gateway filter apply |
| Ip6AddressData.PrefixAgreesWithSize | solidserver/data_source_ip6_address.go:107-110 | when the length is written in decimal, the prefix string parses back into the start address and the reported size |
| Ip6AddressData.AddressData.Read | solidserver/data_source_ip6_address.go:84-153 | a 200 answer sets the id, the space and every fact; any other answer fails and keeps the id |
| Ip6Mac.IsMac | solidserver/resource_ip6_mac.go:39 | the validator's regular expression: six two-digit hexadecimal octets separated by `:` or `-`, mixed allowed; equal to the parser by `Ip6Mac.ValidIffParses` |
| Ip6Mac.ParseGroups | solidserver/resource_ip6_mac.go:39 | a parse yields octets below 256, valid separators, and one octet more than separators |
| Ip6Mac.ParseMac | solidserver/resource_ip6_mac.go:39 | a MAC address parses into six octets |
| Ip6Mac.ParseRender | solidserver/resource_ip6_mac.go:39 | parsing reads back every rendered MAC address |
| Ip6Mac.RenderParse | solidserver/resource_ip6_mac.go:56 | rendering what was parsed gives the text back lower-cased |
| Ip6Mac.GroupsParse | solidserver/resource_ip6_mac.go:39 | the parser reads exactly what the regular expression's groups match |
| Ip6Mac.ValidIffParses | solidserver/resource_ip6_mac.go:39 | the validator accepts exactly the strings that parse as a MAC address, separators mixed or not |
| Ip6Mac.SentMac | solidserver/resource_ip6_mac.go:56 | the MAC address sent is the canonical lower-case rendering of the configured one |
| Ip6Mac.SameMacIffSameParts | solidserver/resource_ip6_mac.go:135 | between valid MAC addresses, equality without regard to case is equality of octets and separators |
| Ip6Mac.EchoKeepsMapping | solidserver/resource_ip6_mac.go:133-139 | a read after a create keeps the resource when the server stores the MAC address as sent |
| Ip6Mac.SeparatorsMatter | solidserver/resource_ip6_mac.go:133-154 | the same octets reported with other separators make the read drop the resource |
| Ip6Mac.Mapping.Create | solidserver/resource_ip6_mac.go:48-80 | sends the lower-cased MAC with `edit_only`; any accepted answer succeeds, and a returned id is adopted; a refusal fails naming address and MAC |
| Ip6Mac.Mapping.Delete | solidserver/resource_ip6_mac.go:82-114 | sends an empty MAC; a returned id clears the id; a refusal fails |
| Ip6Mac.Mapping.Read | solidserver/resource_ip6_mac.go:116-158 | keeps the id exactly when the address still carries the MAC without regard to case; otherwise clears it; only a transport error fails |
| Provider.IsVersion | solidserver/provider.go:51 | the validator's regular expression: empty, or three one-digit components each followed by a dot, then an optional `p`/`P` patch number with at most one lower-case letter; equal to the parser by `Provider.ValidIffParses` |
| Provider.Parse | solidserver/provider.go:51 | what parses is a well-formed setting |
| Provider.PatchValidIffParses | solidserver/provider.go:51 | the patch-level part of the validator accepts exactly what the patch parser reads |
| Provider.ValidIffParses | solidserver/provider.go:51 | the validator accepts exactly the strings that read as a setting |
| Provider.ParseRenderPatch | solidserver/provider.go:51 | every well-formed patch level reads back from its text |
| Provider.ParseRender | solidserver/provider.go:51 | every well-formed setting reads back from its text |
| Provider.RenderParse | solidserver/provider.go:51 | every accepted string is the text of the setting it reads as |
| Provider.AcceptedForms | solidserver/provider.go:51 | "", "7.3.1." and "7.3.2.p1" are accepted |
| Provider.PatchLetterAccepted | solidserver/provider.go:51 | "8.0.0.P12a" is accepted |
| Provider.RefusedForms | solidserver/provider.go:51 | "7.3.1", "10.1.0.", "7.3.1.p", "7.3.1.p1ab" and "7.3.1.pA" are refused |

## Left out

- HTTP transport, JSON decoding, `tflog` logging and the random delay before each subnet creation attempt are not modelled. Each request's answer is a parameter, and a JSON field whose value is not a string counts as absent.
- A read handler's requires (`Carries`, `ReadKeys`) demands the string fields it asserts. In Go a missing field panics, and that path is not modelled.
- The address codec, `urlfromclassparams`, `typeListConsistentMerge`, `url.Values.Encode`/`url.ParseQuery` and the inventory searches (`ipsiteidbyname`, `ipsubnetfindbysize`, `ip6subnetfindbysize`, `vlanidfindfree`, the subnet info lookups) are defined outside this model. They are function values, constrained only by the laws a lemma requires:
  - `SizeLaw4`/`SizeLaw6` for block sizes;
  - inverse size conversions;
  - `ShortensBack` for IPv6 shortening.
  These laws are assumptions about that code.
- Base.First: reads "" for a key with an empty list of values, which `url.ParseQuery` never yields. Go would index out of range there.
- Text.HexValue: defined for hexadecimal digits only. `big.Int.SetString` failures are not modelled; IPv6 gateway lemmas require a hexadecimal candidate.
- Gateway.Abs: Go's `abs` helper is defined outside this model and is taken as the mathematical absolute value on unbounded integers. The int64 range of `gateway_offset` is not modelled, so the case `abs(-2^63)`, where a usual int64 `abs` returns -2^63, is not captured.
- Text.ToUpper: ASCII case mapping only. Go maps all of Unicode.
- Text.Atoi: numbers are unbounded. Go's `int` range and `strconv.Atoi` overflow errors are not modelled.
- Terraform's schema machinery is not modelled: defaults, `ForceNew`, `DiffSuppressFunc` (the MAC's case-insensitive diff suppression), and the attribute-name checks of `d.Set`. The one place where a failing `d.Set` matters is the DHCP flag under Findings.
- The subnet Update handlers (`resourceipsubnetUpdate`, `resourceip6subnetUpdate`) are left out. They send the same tag construction as create, without the candidate loop.
- Application.App.Read: the merged member list is whatever `typeListConsistentMerge` returns.
- Application.MemberListDecodes: the create writes members separated by ';', while read and import split on ','. The model states each as written. The round-trip lemmas assume the server reports the list ','-terminated.
- Ip6Mac.Mapping.Create: an accepted answer without `ret_oid` is reported as success and leaves the id unset, as written.
- Provider: the provider configuration and its TLS client (`NewSOLIDserver`) are not modelled. How the version string becomes the number compared with 710 is not modelled either; the application handlers take that number as a parameter.
- `resource_device.go`, `resource_ip_alias.go`, `data_source_ip6_ptr.go` and `main.go` are not part of this model: plain CRUD, a wrapper over an unseen helper, and plugin bootstrap.
- Concurrency between callers is not modelled. Exclusivity of a reservation is the server's business, and each handler is modelled for a single caller.

## Findings

| source | as written | input that shows it | evidently intended | confidence | as-written member | corrected member |
|---|---|---|---|---|---|---|
| solidserver/resource_vlan.go:112 | `d.Get("request_id").(string)` asserts the integer attribute as a string | any configuration with `request_id` = 5 | the requested id, written in decimal, as the single candidate | not executed | Vlan.RequestedIdPanics | Vlan.RequestedIdIsSoleCandidate |
| solidserver/resource_vlan.go:166 | `d.Get("vlan_id").(string)` asserts the integer attribute as a string | any update | the VLAN number written in decimal | not executed | Vlan.UpdatePanics | Vlan.UpdateKeepsVlanId |
| solidserver/resource_ip6_pool.go:334-340 | the decoded DHCP flag is stored under `dhcprange`, an attribute the schema does not declare (it declares `dhcp_range`), so the store fails and the flag is never refreshed (the same at 399-405) | a pool configured with `dhcp_range` false whose server tags carry `dhcprange6=1` | the flag follows the server's `dhcprange6` tag | not executed | Ip6Pool.FlagDriftMissed | Ip6Pool.ReadAfterCreate |
