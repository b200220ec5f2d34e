/**
 * The source-category catalog of the budget-execution application: eight
 * fixed, ordered tables of data-source identifiers (src/Resource.cs:144-376).
 * The tables overlap on purpose and keep repeated entries; the lemmas below
 * state their sizes, their repeated entries, their overlaps, and the division
 * block that the allocation table ends with.
 */
module Resource {
  import opened Wrappers

  /** The data-source identifiers the eight tables use, in order of first use. */
  datatype Source =
    EJ | ECAD | ORA | ORC | SEMD | MSD | WD | XA | ARD | WSA | MSR | WCF | LCARD | LSASD | EPM
    | SF6A | STAG | DeepWaterHorizon | CategoricalGrants | CleanWaterStateRevolvingFund
    | DrinkingWaterStateRevolvingFund | SpecialProjectsAndEarmarks | LUST | OilSpill | Superfund
    | SpecialAccounts | LustSupplemental | SuperfundSupplemental | Contracts | FTE | Expenses
    | Grants | Payroll | Travel | SiteTravel | NonSiteTravel | Accounts | Activity
    | AllowanceHolders | Appropriations | ControlNumbers | BudgetObjectClass | Divisions
    | Employees | FinanceObjectClass | Funds | Goals | WorkforceData | HumanResourceOrganizations
    | NationalPrograms | Objectives | Organizations | ResourcePlanningOffices | ProgramAreas
    | ProgramProjects | Programs | ResponsibilityCenters | InformationTechnology | WorkCodes
    | FiscalYears | AppropriationBills | PRC | Allocations | DivisionAuthority | DivisionExecution
    | RegionAuthority | Transfers | InternalTransfers | ExternalTransfers | Awards | TimeOff
    | Overtime | Reprogrammings | Supplemental | Outlays | Payments | Requisitions | Procurements
    | TravelObligations | PayrollHours | PayrollObligations | UnliquidatedObligations | Obligations
    | Deobligations | Commitments | OpenCommitments | Vendors | Sites | LeaveProjections
    | PurchaseActivity

  /** The division sources (src/Resource.cs:144-160), in source order. */
  const DivisionSources: seq<Source> := [
    EJ,
    ECAD,
    ORA,
    ORC,
    SEMD,
    MSD,
    WD,
    XA,
    ARD,
    WSA,
    MSR,
    WCF,
    LCARD,
    LSASD
  ]

  /** The appropriation sources (src/Resource.cs:165-181), in source order. */
  const AppropriationSources: seq<Source> := [
    EPM,
    SF6A,
    STAG,
    DeepWaterHorizon,
    CategoricalGrants,
    CleanWaterStateRevolvingFund,
    DrinkingWaterStateRevolvingFund,
    SpecialProjectsAndEarmarks,
    LUST,
    OilSpill,
    Superfund,
    SpecialAccounts,
    LustSupplemental,
    SuperfundSupplemental
  ]

  /** The object-class sources (src/Resource.cs:186-197), in source order. */
  const ObjectClassSources: seq<Source> := [
    Contracts,
    FTE,
    Expenses,
    Grants,
    Payroll,
    WCF,
    Travel,
    SiteTravel,
    NonSiteTravel
  ]

  /** The reference sources (src/Resource.cs:207-234), in source order. */
  const ReferenceSources: seq<Source> := [
    Accounts,
    Activity,
    AllowanceHolders,
    Appropriations,
    ControlNumbers,
    BudgetObjectClass,
    Divisions,
    Employees,
    FinanceObjectClass,
    Funds,
    Goals,
    WorkforceData,
    HumanResourceOrganizations,
    NationalPrograms,
    Objectives,
    Organizations,
    ResourcePlanningOffices,
    ProgramAreas,
    ProgramProjects,
    Programs,
    ResponsibilityCenters,
    InformationTechnology,
    WorkCodes,
    FiscalYears,
    AppropriationBills
  ]

  /** The allocation sources (src/Resource.cs:239-285), in source order. */
  // Written as two displays joined end to end; the order is the source's.
  const AllocationSources: seq<Source> := [
    PRC,
    Allocations,
    DivisionAuthority,
    DivisionExecution,
    RegionAuthority,
    Transfers,
    ControlNumbers,
    InternalTransfers,
    ExternalTransfers,
    Contracts,
    FTE,
    Expenses,
    Grants,
    Payroll,
    Contracts,
    Travel,
    SiteTravel,
    EPM,
    SF6A,
    STAG,
    DeepWaterHorizon,
    LUST
  ] + [
    OilSpill,
    Superfund,
    SpecialAccounts,
    SuperfundSupplemental,
    LustSupplemental,
    Awards,
    TimeOff,
    Overtime,
    EJ,
    ECAD,
    ORA,
    ORC,
    SEMD,
    MSD,
    WD,
    XA,
    ARD,
    WSA,
    MSR,
    WCF,
    LCARD,
    LSASD
  ]

  /** The authority sources (src/Resource.cs:290-341), in source order. */
  // Written as two displays joined end to end; the order is the source's.
  const AuthoritySources: seq<Source> := [
    PRC,
    Allocations,
    Transfers,
    DivisionAuthority,
    DivisionExecution,
    RegionAuthority,
    CleanWaterStateRevolvingFund,
    InternalTransfers,
    ExternalTransfers,
    Contracts,
    FTE,
    Expenses,
    Grants,
    Payroll,
    Contracts,
    Travel,
    SiteTravel,
    EPM,
    SF6A,
    STAG,
    DeepWaterHorizon,
    LUST,
    OilSpill,
    Superfund,
    SpecialAccounts
  ] + [
    SuperfundSupplemental,
    LustSupplemental,
    Awards,
    TimeOff,
    Overtime,
    EJ,
    ECAD,
    ORA,
    ORC,
    SEMD,
    MSD,
    DrinkingWaterStateRevolvingFund,
    WD,
    XA,
    ARD,
    WSA,
    MSR,
    WCF,
    LCARD,
    LSASD,
    NonSiteTravel,
    Reprogrammings,
    SpecialProjectsAndEarmarks,
    Transfers
  ]

  /** The supplemental sources (src/Resource.cs:346-352), in source order. */
  const SupplementalSources: seq<Source> := [
    Supplemental,
    Awards,
    Overtime,
    TimeOff
  ]

  /** The outlay sources (src/Resource.cs:357-376), in source order. */
  const OutlaySources: seq<Source> := [
    Outlays,
    Payments,
    Requisitions,
    Procurements,
    TravelObligations,
    PayrollHours,
    PayrollObligations,
    UnliquidatedObligations,
    Obligations,
    Deobligations,
    Commitments,
    OpenCommitments,
    Vendors,
    Sites,
    LeaveProjections,
    DivisionExecution,
    PurchaseActivity
  ]

  // ---------------------------------------------------------------------------
  // Structural facts about the tables
  // ---------------------------------------------------------------------------

  /** How many times x occurs in s. */
  function Occurrences<T(==)>(s: seq<T>, x: T): (n: nat)
    ensures n <= |s|
    ensures n == 0 <==> x !in s
  {
    if s == [] then 0
    else Occurrences(s[..|s| - 1], x) + (if s[|s| - 1] == x then 1 else 0)
  }

  /** No identifier occurs twice in s. */
  predicate Distinct<T(==)>(s: seq<T>)
  {
    forall i, j | 0 <= i < j < |s| :: s[i] != s[j]
  }

  /** The positions of s that hold x. */
  function Positions<T(==)>(s: seq<T>, x: T): set<int>
  {
    set i | 0 <= i < |s| && s[i] == x
  }

  /** Counting occurrences one by one agrees with the set of positions that hold x. */
  lemma {:induction false} OccurrencesArePositions<T>(s: seq<T>, x: T)
    ensures Occurrences(s, x) == |Positions(s, x)|
  {
    if s != [] {
      var n := |s| - 1;
      OccurrencesArePositions(s[..n], x);
      if s[n] == x {
        assert Positions(s, x) == Positions(s[..n], x) + {n};
      } else {
        assert Positions(s, x) == Positions(s[..n], x);
      }
    }
  }

  /** A table without repeated entries holds each identifier at most once. */
  lemma {:induction false} DistinctOccursAtMostOnce<T>(s: seq<T>, x: T)
    requires Distinct(s)
    ensures Occurrences(s, x) <= 1
  {
    if s != [] {
      var n := |s| - 1;
      assert Distinct(s[..n]);
      DistinctOccursAtMostOnce(s[..n], x);
      if s[n] == x {
        assert x !in s[..n];
      }
    }
  }

  /** Every table is non-empty; the sizes are those of the initialisers. */
  lemma TableSizes()
    ensures |DivisionSources| == 14 && |AppropriationSources| == 14
    ensures |ObjectClassSources| == 9 && |ReferenceSources| == 25
    ensures |AllocationSources| == 44 && |AuthoritySources| == 49
    ensures |SupplementalSources| == 4 && |OutlaySources| == 17
  {
  }

  /** The allocation table holds Contracts twice: the duplicate is kept, not merged. */
  lemma AllocationKeepsRepeatedContracts()
    ensures Occurrences(AllocationSources, Contracts) == 2
  {
    AllocationContractsPositions();
    OccurrencesArePositions(AllocationSources, Contracts);
  }

  /** Contracts sits in the allocation table at positions 9 and 14 and at no other. */
  lemma AllocationContractsPositions()
    ensures Positions(AllocationSources, Contracts) == {9, 14}
  {
  }

  /** The authority table holds Contracts twice: the duplicate is kept, not merged. */
  lemma AuthorityKeepsRepeatedContracts()
    ensures Occurrences(AuthoritySources, Contracts) == 2
  {
    AuthorityContractsPositions();
    OccurrencesArePositions(AuthoritySources, Contracts);
  }

  /** Contracts sits in the authority table at positions 9 and 14 and at no other. */
  lemma AuthorityContractsPositions()
    ensures Positions(AuthoritySources, Contracts) == {9, 14}
  {
  }

  /** The authority table holds Transfers twice: the duplicate is kept, not merged. */
  lemma AuthorityKeepsRepeatedTransfers()
    ensures Occurrences(AuthoritySources, Transfers) == 2
  {
    AuthorityTransfersPositions();
    OccurrencesArePositions(AuthoritySources, Transfers);
  }

  /** Transfers sits in the authority table at positions 2 and 48 and at no other. */
  lemma AuthorityTransfersPositions()
    ensures Positions(AuthoritySources, Transfers) == {2, 48}
  {
  }

  /** The allocation table ends with the whole division table, in the same order. */
  lemma AllocationEndsWithDivisions()
    ensures AllocationSources[30..] == DivisionSources
  {
  }

  /** The division table has no repeated entry. */
  lemma DivisionsDistinct()
    ensures Distinct(DivisionSources)
  {
    forall i, j | 0 <= i < j < |DivisionSources|
      ensures DivisionSources[i] != DivisionSources[j]
    {
    }
  }

  /** Unlike the allocation and authority tables, the division table lists each identifier once. */
  lemma DivisionsListedOnce(x: Source)
    ensures Occurrences(DivisionSources, x) == if x in DivisionSources then 1 else 0
  {
    DivisionsDistinct();
    DistinctOccursAtMostOnce(DivisionSources, x);
  }

  /** No division is an outlay source. */
  lemma DivisionsAreNotOutlays()
    ensures forall x | x in DivisionSources :: x !in OutlaySources
  {
  }

  /** The categories overlap: they are views over the identifiers, not a partition. */
  lemma CategoriesOverlap()
    ensures Contracts in ObjectClassSources && Contracts in AllocationSources
    ensures DivisionExecution in OutlaySources
    ensures DivisionExecution in AllocationSources && DivisionExecution in AuthoritySources
  {
  }

  /** The categories are not nested in one another. */
  lemma CategoriesNotNested()
    ensures NonSiteTravel in ObjectClassSources && NonSiteTravel in AuthoritySources
    ensures NonSiteTravel !in AllocationSources
    ensures Awards in AllocationSources && TimeOff in AllocationSources && Overtime in AllocationSources
    ensures Awards in SupplementalSources && TimeOff in SupplementalSources && Overtime in SupplementalSources
  {
  }

  /** Supplemental is listed by the supplemental table and by no other. */
  lemma SupplementalOnlyInSupplementalSources()
    ensures Supplemental in SupplementalSources
    ensures Supplemental !in DivisionSources && Supplemental !in AppropriationSources
    ensures Supplemental !in ObjectClassSources && Supplemental !in ReferenceSources
    ensures Supplemental !in AllocationSources && Supplemental !in AuthoritySources
    ensures Supplemental !in OutlaySources
  {
  }

  // ---------------------------------------------------------------------------
  // Display and image-path settings
  // ---------------------------------------------------------------------------

  /** The static string fields read once from the application settings (src/Resource.cs:40-135). */
  datatype Setting =
    Summary | FundImages | Databases | DataImages | OfficeImages | NavigationImages | CodecImages
    | OutlayImages | FileImages | ObjectClassImages | ProviderImages | MathImages | InterfaceImages
    | FolderImages | DivisionCaption | DivisionImages | DivisionTextIcon | MainFormImages
    | ExecutionImages | ToolBar

  /** The settings key each field is read from. */
  function SettingKey(s: Setting): string
  {
    match s
    case Summary => "SummaryImages"
    case FundImages => "FundImages"
    case Databases => "Database"
    case DataImages => "DataImages"
    case OfficeImages => "OfficeImages"
    case NavigationImages => "NavigationImages"
    case CodecImages => "CodecImages"
    case OutlayImages => "OutlayImages"
    case FileImages => "FileImages"
    case ObjectClassImages => "ObjectClassImages"
    case ProviderImages => "ProviderImages"
    case MathImages => "MathImages"
    case InterfaceImages => "InterfaceImages"
    case FolderImages => "FolderImages"
    case DivisionCaption => "DivisionCaption"
    case DivisionImages => "DivisionImages"
    case DivisionTextIcon => "DivisionTextIcon"
    case MainFormImages => "MainFormImages"
    case ExecutionImages => "ExecutionImages"
    case ToolBar => "ToolBar"
  }

  /**
   * The value of a field, given the application settings as a map: the
   * settings indexer yields null (None) for a key that is not present.
   */
  function ReadSetting(settings: map<string, string>, s: Setting): (r: Option<string>)
    ensures r.Some? <==> SettingKey(s) in settings
    ensures r.Some? ==> r.value == settings[SettingKey(s)]
  {
    var key := SettingKey(s);
    if key in settings then Some(settings[key]) else None
  }

  /** A field's value depends on its own key's entry only: settings that agree there read the same. */
  lemma ReadSettingReadsOnlyItsKey(a: map<string, string>, b: map<string, string>, s: Setting)
    requires (SettingKey(s) in a) == (SettingKey(s) in b)
    requires SettingKey(s) in a ==> a[SettingKey(s)] == b[SettingKey(s)]
    ensures ReadSetting(a, s) == ReadSetting(b, s)
  {
  }

  /** No field reads "DatabaseImages": an entry under that key changes no field, Databases included. */
  lemma DatabaseImagesIsNotRead(settings: map<string, string>, v: string, s: Setting)
    ensures ReadSetting(settings["DatabaseImages" := v], s) == ReadSetting(settings, s)
  {
    var updated := settings["DatabaseImages" := v];
    assert SettingKey(s) != "DatabaseImages";
    ReadSettingReadsOnlyItsKey(updated, settings, s);
  }

  /** No two fields read the same key; Databases reads "Database", not "DatabaseImages". */
  lemma SettingKeysDistinct(a: Setting, b: Setting)
    requires a != b
    ensures SettingKey(a) != SettingKey(b)
    ensures SettingKey(Databases) == "Database"
  {
  }
}
