/** The fixed reference catalog that `initializeCards` inserts into an empty
    `credit_cards` table (server/storage.ts, lines 155-531). */
module SeedCatalog {
  import opened Wrappers
  import opened Schema

  /** The 25 seed records, in insertion order. Fees and minimum incomes are in
      hundredths. */
  const SeedCards: seq<NewCard> := [
      NewCard(
        "HDFC Regalia", "HDFC Bank",
        250000, 250000,
        "Cashback & Points", "4% on Dining, 2% on Grocery",
        "Monthly income ₹25,000+, Credit Score 750+",
        ["Airport Lounge Access", "Travel Insurance", "Dining Privileges"],
        Some("https://example.com/hdfc-regalia"),
        Some("https://hdfcbank.com/apply-regalia"),
        "Travel", Some(750), Some(2500000)),
      NewCard(
        "ICICI Amazon Pay", "ICICI Bank",
        0, 0,
        "Cashback", "5% on Amazon, 2% elsewhere",
        "Monthly income ₹20,000+, Credit Score 700+",
        ["Amazon Prime Benefits", "No Annual Fee", "Instant Approval"],
        Some("https://example.com/icici-amazon"),
        Some("https://icicibank.com/apply-amazon"),
        "Cashback", Some(700), Some(2000000)),
      NewCard(
        "SBI Simply Save", "State Bank of India",
        49900, 49900,
        "Reward Points", "10% on Dining, 5% on Grocery",
        "Monthly income ₹15,000+, Credit Score 650+",
        ["Dining Rewards", "Fuel Surcharge Waiver", "Movie Discounts"],
        Some("https://example.com/sbi-simplysave"),
        Some("https://sbi.co.in/apply-simplysave"),
        "Dining", Some(650), Some(1500000)),
      NewCard(
        "Axis Magnus", "Axis Bank",
        1250000, 1250000,
        "Miles & Points", "25 Edge Miles per ₹200",
        "Monthly income ₹150,000+, Credit Score 800+",
        ["Priority Pass", "Golf Benefits", "Travel Credits", "Concierge"],
        Some("https://example.com/axis-magnus"),
        Some("https://axisbank.com/apply-magnus"),
        "Travel", Some(800), Some(15000000)),
      NewCard(
        "Kotak League Platinum", "Kotak Bank",
        99900, 99900,
        "Reward Points", "6% on Movies, 4% on Dining",
        "Monthly income ₹30,000+, Credit Score 720+",
        ["Movie Tickets", "Dining Offers", "Fuel Benefits"],
        Some("https://example.com/kotak-league"),
        Some("https://kotakbank.com/apply-league"),
        "Entertainment", Some(720), Some(3000000)),
      NewCard(
        "YES First Exclusive", "YES Bank",
        299900, 299900,
        "Reward Points", "3% Universal Rewards",
        "Monthly income ₹50,000+, Credit Score 750+",
        ["Priority Pass", "Concierge Services", "Travel Benefits"],
        Some("https://example.com/yes-first"),
        Some("https://yesbank.in/apply-first"),
        "Premium", Some(750), Some(5000000)),
      NewCard(
        "Standard Chartered Ultimate", "Standard Chartered",
        499900, 499900,
        "Miles & Points", "5X Rewards on Dining & Travel",
        "Monthly income ₹100,000+, Credit Score 780+",
        ["Hotel Upgrades", "Travel Credits", "Golf Benefits"],
        Some("https://example.com/sc-ultimate"),
        Some("https://sc.com/apply-ultimate"),
        "Travel", Some(780), Some(10000000)),
      NewCard(
        "AMEX Platinum Travel", "American Express",
        350000, 350000,
        "Membership Rewards", "18 Points per ₹100",
        "Monthly income ₹60,000+, Credit Score 760+",
        ["Taj Benefits", "Airport Transfer", "Travel Insurance"],
        Some("https://example.com/amex-platinum"),
        Some("https://americanexpress.com/apply"),
        "Travel", Some(760), Some(6000000)),
      NewCard(
        "HDFC Millennia", "HDFC Bank",
        100000, 100000,
        "Cashback", "5% on Online Shopping, 2.5% elsewhere",
        "Monthly income ₹25,000+, Credit Score 720+",
        ["Online Shopping Rewards", "No Forex Markup", "Instant Discounts"],
        Some("https://example.com/hdfc-millennia"),
        Some("https://hdfcbank.com/apply-millennia"),
        "Cashback", Some(720), Some(2500000)),
      NewCard(
        "ICICI Sapphiro", "ICICI Bank",
        350000, 350000,
        "Reward Points", "3.3% on Dining & International",
        "Monthly income ₹75,000+, Credit Score 750+",
        ["Airport Lounge", "Golf Benefits", "Concierge"],
        Some("https://example.com/icici-sapphiro"),
        Some("https://icicibank.com/apply-sapphiro"),
        "Travel", Some(750), Some(7500000)),
      NewCard(
        "SBI Card PRIME", "SBI Card",
        299900, 299900,
        "Reward Points", "5X on Dining, Entertainment",
        "Monthly income ₹30,000+, Credit Score 700+",
        ["Movie Benefits", "Dining Privileges", "Fuel Surcharge Waiver"],
        Some("https://example.com/sbi-prime"),
        Some("https://sbicard.com/apply-prime"),
        "Entertainment", Some(700), Some(3000000)),
      NewCard(
        "Axis Privilege", "Axis Bank",
        150000, 150000,
        "Miles", "2X Miles on Travel",
        "Monthly income ₹40,000+, Credit Score 730+",
        ["Travel Miles", "Golf Benefits", "Priority Check-in"],
        Some("https://example.com/axis-privilege"),
        Some("https://axisbank.com/apply-privilege"),
        "Travel", Some(730), Some(4000000)),
      NewCard(
        "HDFC MoneyBack", "HDFC Bank",
        50000, 50000,
        "Cashback", "20% on Utility Bills, 5% on Groceries",
        "Monthly income ₹15,000+, Credit Score 650+",
        ["Utility Cashback", "Grocery Rewards", "Fuel Benefits"],
        Some("https://example.com/hdfc-moneyback"),
        Some("https://hdfcbank.com/apply-moneyback"),
        "Cashback", Some(650), Some(1500000)),
      NewCard(
        "ICICI Platinum", "ICICI Bank",
        19900, 19900,
        "Reward Points", "2% on Dining, 1% elsewhere",
        "Monthly income ₹20,000+, Credit Score 680+",
        ["Dining Offers", "Movie Discounts", "Fuel Surcharge Waiver"],
        Some("https://example.com/icici-platinum"),
        Some("https://icicibank.com/apply-platinum"),
        "Dining", Some(680), Some(2000000)),
      NewCard(
        "Kotak Royale Signature", "Kotak Bank",
        199900, 199900,
        "Reward Points", "4% on Dining & Travel",
        "Monthly income ₹50,000+, Credit Score 740+",
        ["Priority Pass", "Travel Benefits", "Concierge"],
        Some("https://example.com/kotak-royale"),
        Some("https://kotakbank.com/apply-royale"),
        "Travel", Some(740), Some(5000000)),
      NewCard(
        "YES Prosperity Cashback", "YES Bank",
        75000, 75000,
        "Cashback", "5% on Groceries, 3% on Fuel",
        "Monthly income ₹25,000+, Credit Score 700+",
        ["Grocery Cashback", "Fuel Benefits", "Utility Rewards"],
        Some("https://example.com/yes-prosperity"),
        Some("https://yesbank.in/apply-prosperity"),
        "Cashback", Some(700), Some(2500000)),
      NewCard(
        "IndusInd Pioneer Heritage Metal", "IndusInd Bank",
        300000, 300000,
        "Reward Points", "3% on Dining & Entertainment",
        "Monthly income ₹75,000+, Credit Score 750+",
        ["Airport Lounge", "Golf Benefits", "Concierge Services"],
        Some("https://example.com/indusind-pioneer"),
        Some("https://indusind.com/apply-pioneer"),
        "Premium", Some(750), Some(7500000)),
      NewCard(
        "RBL Bank World Safari", "RBL Bank",
        250000, 250000,
        "Travel Points", "4% on Travel & Dining",
        "Monthly income ₹60,000+, Credit Score 720+",
        ["Travel Benefits", "Airport Lounge", "Hotel Privileges"],
        Some("https://example.com/rbl-safari"),
        Some("https://rblbank.com/apply-safari"),
        "Travel", Some(720), Some(6000000)),
      NewCard(
        "IDFC FIRST Wealth", "IDFC FIRST Bank",
        200000, 200000,
        "Reward Points", "6X on Dining, 3X on Others",
        "Monthly income ₹45,000+, Credit Score 730+",
        ["Airport Lounge", "Golf Benefits", "Dining Privileges"],
        Some("https://example.com/idfc-wealth"),
        Some("https://idfcfirstbank.com/apply-wealth"),
        "Dining", Some(730), Some(4500000)),
      NewCard(
        "AU Bank Zenith", "AU Small Finance Bank",
        150000, 150000,
        "Cashback", "3% on Online Spends",
        "Monthly income ₹35,000+, Credit Score 710+",
        ["Online Shopping Rewards", "Movie Benefits", "Fuel Surcharge Waiver"],
        Some("https://example.com/au-zenith"),
        Some("https://aubank.in/apply-zenith"),
        "Cashback", Some(710), Some(3500000)),
      NewCard(
        "Federal Bank Signet", "Federal Bank",
        99900, 99900,
        "Reward Points", "4% on Utilities, 2% on Groceries",
        "Monthly income ₹25,000+, Credit Score 690+",
        ["Utility Benefits", "Grocery Rewards", "Fuel Benefits"],
        Some("https://example.com/federal-signet"),
        Some("https://federalbank.co.in/apply-signet"),
        "Utility", Some(690), Some(2500000)),
      NewCard(
        "BOB Eterna", "Bank of Baroda",
        299900, 299900,
        "Reward Points", "5% on Travel, 3% on Dining",
        "Monthly income ₹50,000+, Credit Score 720+",
        ["Travel Benefits", "Airport Lounge", "Golf Privileges"],
        Some("https://example.com/bob-eterna"),
        Some("https://bankofbaroda.in/apply-eterna"),
        "Travel", Some(720), Some(5000000)),
      NewCard(
        "PNB Select", "Punjab National Bank",
        149900, 149900,
        "Reward Points", "3% on Dining & Entertainment",
        "Monthly income ₹30,000+, Credit Score 700+",
        ["Dining Offers", "Movie Benefits", "Fuel Surcharge Waiver"],
        Some("https://example.com/pnb-select"),
        Some("https://pnbindia.in/apply-select"),
        "Entertainment", Some(700), Some(3000000)),
      NewCard(
        "Canara Bank Platinum", "Canara Bank",
        75000, 75000,
        "Reward Points", "2% on All Spends",
        "Monthly income ₹20,000+, Credit Score 650+",
        ["Universal Rewards", "Fuel Benefits", "Movie Discounts"],
        Some("https://example.com/canara-platinum"),
        Some("https://canarabank.com/apply-platinum"),
        "General", Some(650), Some(2000000)),
      NewCard(
        "Union Bank of India Platinum", "Union Bank of India",
        50000, 50000,
        "Reward Points", "1.5% on All Purchases",
        "Monthly income ₹18,000+, Credit Score 640+",
        ["Low Annual Fee", "Fuel Surcharge Waiver", "Utility Benefits"],
        Some("https://example.com/ubi-platinum"),
        Some("https://unionbankofindia.co.in/apply-platinum"),
        "General", Some(640), Some(1800000))
    ]

  /** The card types the seed uses. */
  const SeedCardTypes: set<string> := {"Travel", "Cashback", "Dining", "Entertainment", "Premium", "General", "Utility"}

  lemma SeedCardTypesListed()
    ensures forall i :: 0 <= i < |SeedCards| ==> SeedCards[i].cardType in SeedCardTypes
  {
  }
}
