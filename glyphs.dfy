/** The emoji the app shows as transaction and category icons, each defined
    once and shared by the icon lookup and the bundled transactions. */
module Glyphs {
  const AppleIcon := "\U{1F34E}"
  const CarIcon := "\U{1F697}"
  const FuelPumpIcon := "\U{26FD}"
  const HouseIcon := "\U{1F3E0}"
  const BulbIcon := "\U{1F4A1}"
  const ClapperIcon := "\U{1F3AC}"
  const HospitalIcon := "\U{1F3E5}"
  const BooksIcon := "\U{1F4DA}"
  const ShoppingBagsIcon := "\U{1F6CD}\U{FE0F}"
  const BankIcon := "\U{1F3E6}"
  const MoneyBagIcon := "\U{1F4B0}"
  const CardIcon := "\U{1F4B3}"
  const SatelliteIcon := "\U{1F4E1}"
  const CartIcon := "\U{1F6D2}"
  const CoffeeIcon := "\U{2615}"
  const BubbleTeaIcon := "\U{1F9CB}"
  const NoteIcon := "\U{1F3B5}"
}
