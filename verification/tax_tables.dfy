/** The two literal tax-year tables of the configuration provider.  They are
    data, copied value for value; 2024 is also the base the provider
    compounds inflation onto and the table every simulator year uses. */
module TaxTables {
  import opened TaxTypes

  /** The hand-authored 2024 table (tax_configs.py:13-187). */
  const Config2024: TaxYearConfig := TaxYearConfig(
    2024,
    HandAuthored,
    FederalDeduction2024,
    CaliforniaDeduction2024,
    FederalOrdinary2024,
    FederalPreferential2024,
    California2024,
    MedicareThresholds2024,
    NiitThresholds2024,
    SocialSecurity2024,
    TaxRates(0.009, 0.038, 0.50, 0.85))

  /** The 2024 federal standard deductions. */
  const FederalDeduction2024: map<FilingStatus, real> := map[Single := 14600.0, MarriedJointly := 29200.0, MarriedSeparately := 14600.0, HeadOfHousehold := 21900.0]

  /** The 2024 California standard deductions. */
  const CaliforniaDeduction2024: map<FilingStatus, real> := map[Single := 5540.0, MarriedJointly := 11080.0, MarriedSeparately := 5540.0, HeadOfHousehold := 11080.0]

  /** The 2024 Additional Medicare Tax thresholds. */
  const MedicareThresholds2024: map<FilingStatus, real> := map[Single := 200000.0, MarriedJointly := 250000.0, MarriedSeparately := 125000.0, HeadOfHousehold := 200000.0]

  /** The 2024 Net Investment Income Tax thresholds. */
  const NiitThresholds2024: map<FilingStatus, real> := map[Single := 200000.0, MarriedJointly := 250000.0, MarriedSeparately := 125000.0, HeadOfHousehold := 200000.0]

  /** The 2024 Social Security taxability thresholds. */
  const SocialSecurity2024: map<FilingStatus, SsThresholds> := map[
    MarriedJointly := SsThresholds(32000.0, 44000.0), Single := SsThresholds(25000.0, 34000.0),
    HeadOfHousehold := SsThresholds(25000.0, 34000.0), MarriedSeparately := SsThresholds(25000.0, 34000.0)]

  /** The 2024 federal ordinary-income brackets. */
  const FederalOrdinary2024: map<FilingStatus, seq<Bracket>> := map[
    Single := [
      Bracket(0.0, Finite(11600.0), 0.10),
      Bracket(11601.0, Finite(47150.0), 0.12),
      Bracket(47151.0, Finite(100525.0), 0.22),
      Bracket(100526.0, Finite(191950.0), 0.24),
      Bracket(191951.0, Finite(243725.0), 0.32),
      Bracket(243726.0, Finite(609350.0), 0.35),
      Bracket(609351.0, Unbounded, 0.37)
    ],
    MarriedJointly := [
      Bracket(0.0, Finite(23200.0), 0.10),
      Bracket(23201.0, Finite(94300.0), 0.12),
      Bracket(94301.0, Finite(201050.0), 0.22),
      Bracket(201051.0, Finite(383900.0), 0.24),
      Bracket(383901.0, Finite(487450.0), 0.32),
      Bracket(487451.0, Finite(731200.0), 0.35),
      Bracket(731201.0, Unbounded, 0.37)
    ],
    MarriedSeparately := [
      Bracket(0.0, Finite(11600.0), 0.10),
      Bracket(11601.0, Finite(47150.0), 0.12),
      Bracket(47151.0, Finite(100525.0), 0.22),
      Bracket(100526.0, Finite(191950.0), 0.24),
      Bracket(191951.0, Finite(243725.0), 0.32),
      Bracket(243726.0, Finite(365600.0), 0.35),
      Bracket(365601.0, Unbounded, 0.37)
    ],
    HeadOfHousehold := [
      Bracket(0.0, Finite(16550.0), 0.10),
      Bracket(16551.0, Finite(63100.0), 0.12),
      Bracket(63101.0, Finite(100500.0), 0.22),
      Bracket(100501.0, Finite(191950.0), 0.24),
      Bracket(191951.0, Finite(243700.0), 0.32),
      Bracket(243701.0, Finite(609350.0), 0.35),
      Bracket(609351.0, Unbounded, 0.37)
    ]
  ]

  /** The 2024 federal brackets for qualified dividends and long-term gains. */
  const FederalPreferential2024: map<FilingStatus, seq<Bracket>> := map[
    Single := [
      Bracket(0.0, Finite(47025.0), 0.00),
      Bracket(47026.0, Finite(518900.0), 0.15),
      Bracket(518901.0, Unbounded, 0.20)
    ],
    MarriedJointly := [
      Bracket(0.0, Finite(94050.0), 0.00),
      Bracket(94051.0, Finite(583750.0), 0.15),
      Bracket(583751.0, Unbounded, 0.20)
    ],
    MarriedSeparately := [
      Bracket(0.0, Finite(47025.0), 0.00),
      Bracket(47026.0, Finite(291850.0), 0.15),
      Bracket(291851.0, Unbounded, 0.20)
    ],
    HeadOfHousehold := [
      Bracket(0.0, Finite(63100.0), 0.00),
      Bracket(63101.0, Finite(551350.0), 0.15),
      Bracket(551351.0, Unbounded, 0.20)
    ]
  ]

  /** The 2024 California brackets. */
  const California2024: map<FilingStatus, seq<Bracket>> := map[
    Single := [
      Bracket(0.0, Finite(10756.0), 0.01),
      Bracket(10757.0, Finite(25499.0), 0.02),
      Bracket(25499.0, Finite(40245.0), 0.04),
      Bracket(40245.0, Finite(55866.0), 0.06),
      Bracket(55866.0, Finite(70606.0), 0.08),
      Bracket(70606.0, Finite(360659.0), 0.093),
      Bracket(360659.0, Finite(432787.0), 0.103),
      Bracket(432787.0, Finite(721314.0), 0.113),
      Bracket(721314.0, Unbounded, 0.123)
    ],
    MarriedJointly := [
      Bracket(0.0, Finite(21512.0), 0.01),
      Bracket(21513.0, Finite(50998.0), 0.02),
      Bracket(50999.0, Finite(80490.0), 0.04),
      Bracket(80491.0, Finite(111732.0), 0.06),
      Bracket(111733.0, Finite(141212.0), 0.08),
      Bracket(141213.0, Finite(721318.0), 0.093),
      Bracket(721319.0, Finite(865574.0), 0.103),
      Bracket(865575.0, Finite(1442628.0), 0.113),
      Bracket(1442629.0, Unbounded, 0.123)
    ],
    MarriedSeparately := [
      Bracket(0.0, Finite(10756.0), 0.01),
      Bracket(10757.0, Finite(25499.0), 0.02),
      Bracket(25499.0, Finite(40245.0), 0.04),
      Bracket(40245.0, Finite(55866.0), 0.06),
      Bracket(55866.0, Finite(70606.0), 0.08),
      Bracket(70606.0, Finite(360659.0), 0.093),
      Bracket(360659.0, Finite(432787.0), 0.103),
      Bracket(432787.0, Finite(721314.0), 0.113),
      Bracket(721314.0, Unbounded, 0.123)
    ],
    HeadOfHousehold := [
      Bracket(0.0, Finite(21512.0), 0.01),
      Bracket(21513.0, Finite(50998.0), 0.02),
      Bracket(50999.0, Finite(80490.0), 0.04),
      Bracket(80491.0, Finite(111732.0), 0.06),
      Bracket(111733.0, Finite(141212.0), 0.08),
      Bracket(141213.0, Finite(721318.0), 0.093),
      Bracket(721319.0, Finite(865574.0), 0.103),
      Bracket(865575.0, Finite(1442628.0), 0.113),
      Bracket(1442629.0, Unbounded, 0.123)
    ]
  ]

  /** The hand-authored 2023 table (tax_configs.py:190-364). */
  const Config2023: TaxYearConfig := TaxYearConfig(
    2023,
    HandAuthored,
    map[Single := 13850.0, MarriedJointly := 27700.0, MarriedSeparately := 13850.0, HeadOfHousehold := 20800.0],
    map[Single := 5202.0, MarriedJointly := 10404.0, MarriedSeparately := 5202.0, HeadOfHousehold := 10404.0],
    map[
      Single := [
        Bracket(0.0, Finite(11000.0), 0.10),
        Bracket(11001.0, Finite(44725.0), 0.12),
        Bracket(44726.0, Finite(95375.0), 0.22),
        Bracket(95376.0, Finite(182100.0), 0.24),
        Bracket(182101.0, Finite(231250.0), 0.32),
        Bracket(231251.0, Finite(578125.0), 0.35),
        Bracket(578126.0, Unbounded, 0.37)
      ],
      MarriedJointly := [
        Bracket(0.0, Finite(22000.0), 0.10),
        Bracket(22001.0, Finite(89450.0), 0.12),
        Bracket(89451.0, Finite(190750.0), 0.22),
        Bracket(190751.0, Finite(364200.0), 0.24),
        Bracket(364201.0, Finite(462500.0), 0.32),
        Bracket(462501.0, Finite(693750.0), 0.35),
        Bracket(693751.0, Unbounded, 0.37)
      ],
      MarriedSeparately := [
        Bracket(0.0, Finite(11000.0), 0.10),
        Bracket(11001.0, Finite(44725.0), 0.12),
        Bracket(44726.0, Finite(95375.0), 0.22),
        Bracket(95376.0, Finite(182100.0), 0.24),
        Bracket(182101.0, Finite(231250.0), 0.32),
        Bracket(231251.0, Finite(346875.0), 0.35),
        Bracket(346876.0, Unbounded, 0.37)
      ],
      HeadOfHousehold := [
        Bracket(0.0, Finite(15700.0), 0.10),
        Bracket(15701.0, Finite(59850.0), 0.12),
        Bracket(59851.0, Finite(95350.0), 0.22),
        Bracket(95351.0, Finite(182100.0), 0.24),
        Bracket(182101.0, Finite(231250.0), 0.32),
        Bracket(231251.0, Finite(578100.0), 0.35),
        Bracket(578101.0, Unbounded, 0.37)
      ]
    ],
    map[
      Single := [
        Bracket(0.0, Finite(44625.0), 0.00),
        Bracket(44626.0, Finite(492300.0), 0.15),
        Bracket(492301.0, Unbounded, 0.20)
      ],
      MarriedJointly := [
        Bracket(0.0, Finite(89250.0), 0.00),
        Bracket(89251.0, Finite(553850.0), 0.15),
        Bracket(553851.0, Unbounded, 0.20)
      ],
      MarriedSeparately := [
        Bracket(0.0, Finite(44625.0), 0.00),
        Bracket(44626.0, Finite(276900.0), 0.15),
        Bracket(276901.0, Unbounded, 0.20)
      ],
      HeadOfHousehold := [
        Bracket(0.0, Finite(59750.0), 0.00),
        Bracket(59751.0, Finite(523050.0), 0.15),
        Bracket(523051.0, Unbounded, 0.20)
      ]
    ],
    map[
      Single := [
        Bracket(0.0, Finite(10099.0), 0.01),
        Bracket(10100.0, Finite(23942.0), 0.02),
        Bracket(23943.0, Finite(37788.0), 0.04),
        Bracket(37789.0, Finite(52455.0), 0.06),
        Bracket(52456.0, Finite(66295.0), 0.08),
        Bracket(66296.0, Finite(338639.0), 0.093),
        Bracket(338640.0, Finite(406364.0), 0.103),
        Bracket(406365.0, Finite(677275.0), 0.113),
        Bracket(677276.0, Unbounded, 0.123)
      ],
      MarriedJointly := [
        Bracket(0.0, Finite(20198.0), 0.01),
        Bracket(20199.0, Finite(47884.0), 0.02),
        Bracket(47885.0, Finite(75576.0), 0.04),
        Bracket(75577.0, Finite(104910.0), 0.06),
        Bracket(104911.0, Finite(132590.0), 0.08),
        Bracket(132591.0, Finite(677278.0), 0.093),
        Bracket(677279.0, Finite(812728.0), 0.103),
        Bracket(812729.0, Finite(1354550.0), 0.113),
        Bracket(1354551.0, Unbounded, 0.123)
      ],
      MarriedSeparately := [
        Bracket(0.0, Finite(10099.0), 0.01),
        Bracket(10100.0, Finite(23942.0), 0.02),
        Bracket(23943.0, Finite(37788.0), 0.04),
        Bracket(37789.0, Finite(52455.0), 0.06),
        Bracket(52456.0, Finite(66295.0), 0.08),
        Bracket(66296.0, Finite(338639.0), 0.093),
        Bracket(338640.0, Finite(406364.0), 0.103),
        Bracket(406365.0, Finite(677275.0), 0.113),
        Bracket(677276.0, Unbounded, 0.123)
      ],
      HeadOfHousehold := [
        Bracket(0.0, Finite(20198.0), 0.01),
        Bracket(20199.0, Finite(47884.0), 0.02),
        Bracket(47885.0, Finite(75576.0), 0.04),
        Bracket(75577.0, Finite(104910.0), 0.06),
        Bracket(104911.0, Finite(132590.0), 0.08),
        Bracket(132591.0, Finite(677278.0), 0.093),
        Bracket(677279.0, Finite(812728.0), 0.103),
        Bracket(812729.0, Finite(1354550.0), 0.113),
        Bracket(1354551.0, Unbounded, 0.123)
      ]
    ],
    map[Single := 200000.0, MarriedJointly := 250000.0, MarriedSeparately := 125000.0, HeadOfHousehold := 200000.0],
    map[Single := 200000.0, MarriedJointly := 250000.0, MarriedSeparately := 125000.0, HeadOfHousehold := 200000.0],
    map[MarriedJointly := SsThresholds(32000.0, 44000.0), Single := SsThresholds(25000.0, 34000.0), HeadOfHousehold := SsThresholds(25000.0, 34000.0), MarriedSeparately := SsThresholds(25000.0, 34000.0)],
    TaxRates(0.009, 0.038, 0.50, 0.85))
}
